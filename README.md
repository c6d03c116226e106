# Solana payment gateway backend — a Dafny model

The backend lets a merchant accept payment in any Solana token and get
settled in USDC. A merchant registers with a name, an e-mail address and a
wallet address, and receives an API key and a session token (a JWT). A
payment is created for a merchant with an amount and an input token. It
records a Jupiter quote for converting that amount to USDC. It is then
processed with the signature of the customer's on-chain transfer. Processing
looks the transaction up on Solana and marks the payment `received`. It then
converts it: `converting` first, then a fresh Jupiter quote and a swap
request, then `settled` with the swap record, or `failed` with the reason.
Merchants can read their profile without the API key, change three
settlement settings, and rotate their API key. Two middlewares authenticate
requests: one by a `Bearer` JWT, the other by the `x-api-key` header.

The project models the two controllers, the two Mongoose models and the
authentication middleware:

- `wrappers.dfy`, `mongo.dfy`: `Option`, and the document store's
  conventions. An id is a string. A time is a natural number. A `required`
  string path must be non-empty.
- `js_string.dfy`: the JavaScript string operations the core relies on.
  `String.prototype.replace` with a string pattern replaces the first
  occurrence. `Number.prototype.toString` is modelled on integers, together
  with its parse-back.
- `services.dfy`: the external services, given as function-valued
  parameters. They are the Jupiter quote and swap-instructions calls,
  Solana's `getTransaction`, and the `PublicKey` constructor. Each call
  either returns or throws, and a thrown value's message is modelled as
  `convertToUSDC` reads it.
- `merchant_model.dfy`, `payment_model.dfy`: the two schemas (required
  paths, defaults, the `status` enumeration, the unique indexes on `email`
  and `apiKey`, timestamps). Each collection is a class whose `Insert` and
  `Save` methods enforce the schema and stamp `createdAt`/`updatedAt`.
- `payment_controller.dfy`, `merchant_controller.dfy`: every handler that
  writes appears twice. One form is a pure function from the store and the
  collaborators' answers to the reply and the new store; for
  `processPayment`, the function gives the list of versions it saves. The
  other is a method over the collection classes, whose `ensures` ties it to
  that function. `getMerchantProfile` only reads, so it is the function
  `GetMerchantProfile` alone.
- `auth.dfy`: both middlewares, as functions deciding between `next()` and
  an error reply, and as methods acting on an explicit request/response
  exchange.
- `lifecycle.dfy`: properties across steps. It gives the status paths of
  one `processPayment`. It defines an invariant of both collections and
  proves that every sequence of requests preserves it. The proof also shows
  that no request removes a document or changes what a document was created
  with.

A payment gateway would normally treat `settled` and `failed` as terminal,
with at most one conversion per payment. This code has no such guard: `processPayment`
accepts any stored payment whose transaction exists. The model follows the
code. `Lifecycle.ReprocessingSwapsAgain` shows that a settled payment that
is processed again is swapped again and gets a new `settlementTx`. For the
same reason, the transaction lookup models only what the code checks:
whether Solana returns a transaction for the signature. It does not model
its amount, destination or confirmation depth.

## Model

| member | source | states |
|---|---|---|
| JsString.ReplaceFirst | backend/src/middleware/auth.ts:21 | a string pattern is replaced at its first occurrence only; no occurrence leaves the string unchanged; a string that starts with the pattern keeps its rest after the replacement |
| JsString.IndexFrom | backend/src/middleware/auth.ts:21 | the result is the first occurrence of the pattern at or after the start index, and there is none before it |
| JsString.NumberToString | backend/src/controllers/payment.controller.ts:23 | the decimal text of an amount parses back to the same integer |
| JsString.NumberToStringInjective | backend/src/controllers/payment.controller.ts:34 | different amounts give different `inputAmount` strings |
| JsString.DigitsValueOfDigits | backend/src/controllers/payment.controller.ts:34 | the digit string of a natural number has no leading zero and denotes that number |
| Services.Message | backend/src/controllers/payment.controller.ts:131 | an `Error`'s message is kept; any other thrown value gives "Unknown error occurred" |
| PaymentModel.ParseStatus | backend/src/models/payment.ts:54-58 | a name is accepted exactly when it is one of the five enumerated statuses, and then it is that status's name |
| PaymentModel.StatusNameRoundTrip | backend/src/models/payment.ts:56 | every status's name parses back to that status |
| PaymentModel.NewPayment | backend/src/models/payment.ts:20-64 | a new document stores the given merchant id, amount, input token, input amount, quoted output amount and payment address; it takes the USDC mint when `outputToken` is not given and `pending` when `status` is not given; `signature`, `settlementTx` and `error` are absent; it satisfies the schema exactly when its six required string paths are non-empty |
| PaymentModel.PaymentCollection.Insert | backend/src/models/payment.ts:65-67 | an invalid or duplicate-id document is refused and nothing changes; otherwise it is stored with `createdAt` and `updatedAt` set to now and appended to the log of writes |
| PaymentModel.PaymentCollection.Save | backend/src/models/payment.ts:65-67 | an invalid document is refused and nothing changes; otherwise the given version is stored under its id with `updatedAt` set to now, and appended to the log of writes |
| MerchantModel.NewMerchant | backend/src/models/merchant.ts:16-49 | a new merchant gets settlement currency USDC, minimum settlement 1, auto-settlement on and no webhook; it satisfies the schema exactly when name, email, wallet address and API key are non-empty |
| MerchantModel.SaveKeepsValid | backend/src/models/merchant.ts:21-25 | a save the schema and the unique `email` and `apiKey` indexes accept keeps every stored merchant valid and the two paths unique |
| MerchantModel.FindByApiKey | backend/src/models/merchant.ts:42-46 | finds the one merchant holding a key, or reports that no merchant holds it |
| MerchantModel.MerchantCollection.Insert | backend/src/models/merchant.ts:50-52 | a document the schema or a unique index refuses leaves the collection unchanged; otherwise it is stored with both timestamps set to now, and the collection stays valid |
| MerchantModel.Resaved | backend/src/models/merchant.ts:50-52 | a save writes the document with only `updatedAt` possibly changed: an unmodified document is written back as stored, a modified one gets `updatedAt` set to now |
| MerchantModel.MerchantCollection.Save | backend/src/models/merchant.ts:50-52 | a refused save leaves the collection unchanged; otherwise the merchant is replaced by its `Resaved` version, and the collection stays valid |
| PaymentController.Create | backend/src/controllers/payment.controller.ts:11-56 | unknown merchant gives 404; for a known merchant every other failure, a throwing quote or a document the schema or the `_id` index refuses, gives 500 "Failed to create payment" and stores nothing; 201 exactly when the merchant exists, the quote returns and the document is valid, and then the stored payment is pending, pays to the merchant's wallet, converts to USDC, has `inputAmount` equal to the decimal text of `amount` and the quoted `outAmount`, and the reply echoes it |
| PaymentController.CreatePayment | backend/src/controllers/payment.controller.ts:11-56 | the reply and the new payment collection are those of `Create` |
| PaymentController.Convert | backend/src/controllers/payment.controller.ts:91-134 | a missing merchant gives one `failed` write with "Merchant not found" and no service call; otherwise `converting` is saved first; when the quote and the `PublicKey` both return, the swap call is always made; the quote asks for the stored input amount and mint into USDC with 50 bps slippage, the swap sends that fresh quote with the merchant's wallet key, SOL wrapping and 1000 micro-lamports; the last write is `settled` exactly when every call returned, carrying the swap record, and is otherwise `failed` with the old `settlementTx` and the message of the quote, `PublicKey` or swap call that threw; no write changes what the payment was created with |
| PaymentController.ConvertToUsdc | backend/src/controllers/payment.controller.ts:91-134 | the in-memory payment ends as the last version `Convert` saves, and the collection and its write log take exactly those versions |
| PaymentController.Process | backend/src/controllers/payment.controller.ts:58-89 | unknown payment gives 404, a signature with no transaction gives 400, a lookup that throws or a refused `received` save gives 500 "Failed to process payment", and none of them saves or calls anything; 200 exactly when the payment exists, the transaction is found and the document is valid, and then `received` with the signature is saved first, then the conversion's versions, and the reply carries the last one |
| PaymentController.ProcessThenConverts | backend/src/controllers/payment.controller.ts:77-82 | a successful processing saves the `received` version and then exactly the versions, and makes exactly the service calls, of converting that saved version |
| PaymentController.ProcessPayment | backend/src/controllers/payment.controller.ts:58-89 | the reply is that of `Process`, and the collection and its write log take exactly the versions `Process` saves |
| MerchantController.Register | backend/src/controllers/merchant.controller.ts:8-59 | an invalid wallet address or a taken e-mail gives 400; 201 exactly when the wallet is valid, the e-mail is free and the new merchant passes the schema and the unique indexes, and then the merchant is stored with its defaults and the reply carries its profile with the key and the signed token; a save refused after those two checks gives 500 "Failed to register merchant"; otherwise nothing changes; the store stays valid |
| MerchantController.RegisterMerchant | backend/src/controllers/merchant.controller.ts:8-59 | the reply and the new merchant collection are those of `Register` |
| MerchantController.ProfileOf | backend/src/controllers/merchant.controller.ts:63 | the profile is the merchant without its API key, and adding the key back gives the merchant |
| MerchantController.GetMerchantProfile | backend/src/controllers/merchant.controller.ts:61-72 | unknown id gives 404; otherwise 200 with a profile that carries the requested id and is the stored merchant without its API key |
| MerchantController.ProfileIgnoresApiKey | backend/src/controllers/merchant.controller.ts:63 | the profile reply does not depend on the merchant's API key |
| MerchantController.ApplySettings | backend/src/controllers/merchant.controller.ts:83-91 | each of the three settings changes only when given, no other path changes, and giving none is the identity |
| MerchantController.ApplySettingsIdempotent | backend/src/controllers/merchant.controller.ts:83-91 | applying the same settings twice equals applying them once |
| MerchantController.Update | backend/src/controllers/merchant.controller.ts:74-99 | unknown id gives 404 and nothing changes; a refused save gives 500 "Failed to update merchant settings"; on a valid store a known id always gives 200, with the merchant replaced by its updated settings, `updatedAt` moved only if a setting changed, and the store still valid |
| MerchantController.UpdateWithoutSettingsKeepsStore | backend/src/controllers/merchant.controller.ts:83-94 | an update that supplies no setting answers with the stored merchant and changes nothing, `updatedAt` included |
| MerchantController.UpdateRepeatedKeepsStore | backend/src/controllers/merchant.controller.ts:83-94 | sending the same settings again at a later time leaves the collection as the first update left it |
| MerchantController.UpdateMerchantSettings | backend/src/controllers/merchant.controller.ts:74-99 | the reply and the new merchant collection are those of `Update` |
| MerchantController.Regenerate | backend/src/controllers/merchant.controller.ts:101-116 | unknown id gives 404; 200 exactly when the id is known and the new key is non-empty and held by no other merchant, and then only that merchant's key changes (and `updatedAt`, if the key is new) and the reply carries it; a refused save gives 500 "Failed to regenerate API key" and changes nothing |
| MerchantController.RegenerateApiKey | backend/src/controllers/merchant.controller.ts:101-116 | the reply and the new merchant collection are those of `Regenerate` |
| Auth.BearerToken | backend/src/middleware/auth.ts:16-21 | there is a token exactly when the header is present and starts with `Bearer `, and the header is then `Bearer ` followed by the token |
| Auth.BearerTokenRoundTrip | backend/src/middleware/auth.ts:16-21 | the token of `Bearer ` followed by a token is that token |
| Auth.AuthenticateMerchant | backend/src/middleware/auth.ts:13-38 | every rejection is 401; no bearer token gives "No token, authorization denied"; a token that does not verify and a throwing lookup give "Token is not valid"; a verified token with no or an unknown merchant id gives "Invalid token"; the request goes on exactly when the lookup does not throw and the verified token names a stored merchant, and then with that merchant |
| Auth.AuthenticateApiKey | backend/src/middleware/auth.ts:40-57 | a missing or empty key gives 401 "API key is required"; a throwing lookup gives 500; a key no merchant holds gives 401 "Invalid API key"; the request goes on exactly when a stored merchant holds the key, and then with that merchant |
| Auth.RotationRevokesOldKey | backend/src/controllers/merchant.controller.ts:101-116 | after a successful key rotation the new key authenticates the same merchant and the old key is rejected as invalid |
| Auth.RunAuthenticateMerchant | backend/src/middleware/auth.ts:13-38 | either `req.merchant` is set and `next()` is called once, or the response gets the decision's code and error and nothing else happens |
| Auth.RunAuthenticateApiKey | backend/src/middleware/auth.ts:40-57 | either `req.merchant` is set and `next()` is called once, or the response gets the decision's code and error and nothing else happens |
| Lifecycle.Statuses | backend/src/models/payment.ts:13 | the statuses of the saved versions, one per version, in order |
| Lifecycle.ProcessStatusPaths | backend/src/controllers/payment.controller.ts:77-134 | a successful processing saves the statuses received, converting, settled, or received, converting, failed, or received, failed, and the last of these exactly when the merchant is missing |
| Lifecycle.ConvertIgnoresOutputAmount | backend/src/controllers/payment.controller.ts:102-107 | the conversion re-quotes from `inputAmount` and never reads the `outputAmount` quoted at creation |
| Lifecycle.ReprocessingSwapsAgain | backend/src/controllers/payment.controller.ts:58-89 | a settled payment that is processed again, with the services answering, is swapped again and its `settlementTx` replaced |
| Lifecycle.ReprocessingFailsWithOldSettlement | backend/src/controllers/payment.controller.ts:120-132 | a settled payment processed again whose fresh quote throws ends `failed` with the thrown message while keeping its old `settlementTx`, so a settlement record is not confined to settled payments |
| Lifecycle.EmptyInvariant | backend/src/models/payment.ts:20-67 | the empty collections satisfy the invariant |
| Lifecycle.StorePreserves | backend/src/models/payment.ts:20-67 | storing a payment at rest that pays to its stored merchant's wallet, with its creation values kept, preserves the invariant |
| Lifecycle.MerchantStepPreserves | backend/src/models/merchant.ts:16-52 | a merchant request that keeps ids, names, e-mails, wallets and creation times preserves the invariant |
| Lifecycle.CreateStepPreserves | backend/src/controllers/payment.controller.ts:11-56 | creating a payment preserves the invariant and changes no stored document |
| Lifecycle.ProcessStepPreserves | backend/src/controllers/payment.controller.ts:58-134 | processing a payment preserves the invariant and keeps the payment's creation values |
| Lifecycle.StepPreserves | backend/src/controllers/payment.controller.ts:11-134 | every request preserves the invariant, removes nothing and keeps creation values |
| Lifecycle.GrowsTransitive | backend/src/models/payment.ts:20-67 | keeping documents and their creation values composes over two steps |
| Lifecycle.RunPreserves | backend/src/controllers/merchant.controller.ts:8-116 | every sequence of requests preserves the invariant, removes no document and changes no creation value |
| Lifecycle.ProcessingReachesConverting | backend/src/controllers/payment.controller.ts:91-99 | under the invariant a processed payment always reaches `converting`, because its merchant is always found |

## Left out

- Amounts are integers, taken to arrive as JSON numbers. JavaScript numbers are doubles, so fractional amounts, exponent notation in `toString`, and `NaN` are not modelled. A numeric string such as `"05"` or `"+5"` would be stored verbatim as `inputAmount` and sent in both quote requests, while Mongoose casts `amount` to 5. The model does not capture this, so `Lifecycle.AtRest`'s `inputAmount == NumberToString(amount)` holds only for amounts sent as numbers.
- Failures of the database other than schema validation and the unique indexes are not modelled. These include a lost connection, a timeout, and a `findById` that throws on an id that is not an ObjectId. The exception is the lookup in the two middlewares, where a throwing lookup is a parameter.
- PaymentController.ConvertToUsdc: a save inside the conversion that the database refuses is not modelled. Such a save would leave `failed` with a `settlementTx`, or throw out of the catch block.
- PaymentController.ProcessPayment: the save of the `received` version cannot be refused in the model. That version differs from a stored valid document only in status, signature and time.
- MerchantController.Update: a setting sent as `null` or as a value of the wrong type is not modelled. Settings are optional values of the schema's types.
- PaymentModel.PaymentCollection.Save: always moves `updatedAt` to now. Mongoose leaves it when the saved payment is unmodified, which only happens when a payment already `received` with the same signature is processed again. No payment is `received` between requests in the model (`Lifecycle.AtRest`).
- `new PublicKey(walletAddress)` is a separate parameter of registration and of conversion. The model does not require the two to agree on the same wallet, although the constructor is deterministic. No stated property depends on that agreement.
- Concurrent requests and their interleaving are not modelled. Each request is one atomic step.
- Time is one `now` parameter per request. Mongoose takes a fresh clock reading per save.
- Identifiers and keys are parameters of the request that creates them. These are new ObjectIds, `uuidv4()` keys, and the signed JWT.
- JWT signing and verification, and base58 validation inside `PublicKey`, are parameters. Their algorithms, the secret, and the 24-hour expiry are not modelled.
- Solana's `getTransaction` is modelled as answering "found", "not found" or throwing. The transaction's contents are not inspected, because the code does not inspect them.
- The Jupiter responses are opaque. `settlementTx` is the swap result's JSON text, which is taken as given.
- The webhook branch of `convertToUSDC` is empty in the source and is not modelled. Error logging to the console is not modelled either.
- Auth.AuthenticateApiKey requires the merchant collection to hold each API key at most once. The unique index on `apiKey` guarantees this for every stored collection. Without it, `findOne` would pick an unspecified match.
- HTTP routing, request validators, the server entry point, the front end and the Solana connection setup are not part of this model.
