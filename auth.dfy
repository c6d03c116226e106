/**
 * The two authentication middlewares: by bearer token (JWT) for the
 * merchant routes and by `x-api-key` header for the payment routes.
 *
 * Each decision is a function from the request's header and the merchant
 * collection to a Decision: pass the request on with `req.merchant` set,
 * or answer it with a status and an error. `jwt.verify` is a partial
 * function supplied by the caller (`None` where it throws), and whether
 * the database lookup throws is a flag.
 */
module Auth {
  import opened Wrappers
  import opened Mongo
  import opened JsString
  import opened MerchantModel
  import MerchantController

  const BEARER: string := "Bearer "

  const NO_TOKEN: string := "No token, authorization denied"
  const TOKEN_NOT_VALID: string := "Token is not valid"
  const INVALID_TOKEN: string := "Invalid token"
  const API_KEY_REQUIRED: string := "API key is required"
  const INVALID_API_KEY: string := "Invalid API key"
  const AUTHENTICATION_FAILED: string := "Authentication failed"

  /** The payload `jwt.verify` decodes; its `merchantId` may be missing. */
  datatype Claims = Claims(merchantId: Option<MerchantId>)

  /** Call `next()` with `req.merchant` set, or answer with a status code and an error. */
  datatype Decision = Next(merchant: Merchant) | Reject(code: nat, error: string)

  /**
   * The token of an `Authorization` header: present exactly when the
   * header starts with `Bearer `, and then the rest of the header.
   */
  function BearerToken(authorization: Option<string>): (t: Option<string>)
    ensures t.Some? <==> authorization.Some? && StartsWith(authorization.value, BEARER)
    ensures t.Some? ==> authorization.value == BEARER + t.value
  {
    if authorization.Some? && StartsWith(authorization.value, BEARER) then
      var h := authorization.value;
      assert h == h[..|BEARER|] + h[|BEARER|..];
      Some(ReplaceFirst(h, BEARER, ""))
    else None
  }

  lemma BearerTokenRoundTrip(token: string)
    ensures BearerToken(Some(BEARER + token)) == Some(token)
  {
    assert StartsWith(BEARER + token, BEARER) by {
      assert (BEARER + token)[..|BEARER|] == BEARER;
    }
  }

  /** The merchant id in the verified token of the header, if there is one. */
  function ClaimedMerchant(authorization: Option<string>, verify: string -> Option<Claims>): Option<MerchantId> {
    match BearerToken(authorization)
    case None => None
    case Some(token) =>
      match verify(token)
      case None => None
      case Some(decoded) => decoded.merchantId
  }

  /**
   * authenticateMerchant: a missing or non-`Bearer ` header, a token that
   * does not verify, a throwing lookup, and a decoded merchant id that is
   * missing or unknown are all answered with 401; otherwise the request
   * goes on with the merchant the token names.
   */
  function AuthenticateMerchant(
    authorization: Option<string>, verify: string -> Option<Claims>,
    merchants: map<MerchantId, Merchant>, lookupThrows: bool): (d: Decision)
    ensures d.Reject? ==> d.code == 401
    ensures BearerToken(authorization).None? ==> d == Reject(401, NO_TOKEN)
    ensures BearerToken(authorization).Some? && verify(BearerToken(authorization).value).None? ==>
      d == Reject(401, TOKEN_NOT_VALID)
    ensures BearerToken(authorization).Some? && verify(BearerToken(authorization).value).Some? && lookupThrows ==>
      d == Reject(401, TOKEN_NOT_VALID)
    ensures (&& BearerToken(authorization).Some? && verify(BearerToken(authorization).value).Some? && !lookupThrows
             && (ClaimedMerchant(authorization, verify).None? || ClaimedMerchant(authorization, verify).value !in merchants)) ==>
      d == Reject(401, INVALID_TOKEN)
    ensures d.Next? <==>
      !lookupThrows && ClaimedMerchant(authorization, verify).Some? && ClaimedMerchant(authorization, verify).value in merchants
    ensures d.Next? ==> d.merchant == merchants[ClaimedMerchant(authorization, verify).value]
  {
    match BearerToken(authorization)
    case None => Reject(401, NO_TOKEN)
    case Some(token) =>
      match verify(token)
      case None => Reject(401, TOKEN_NOT_VALID)
      case Some(decoded) =>
        if lookupThrows then Reject(401, TOKEN_NOT_VALID)
        else if decoded.merchantId.None? || decoded.merchantId.value !in merchants then Reject(401, INVALID_TOKEN)
        else Next(merchants[decoded.merchantId.value])
  }

  /**
   * authenticateApiKey: a missing or empty `x-api-key` is answered with
   * 401, a throwing lookup with 500, a key no merchant holds with 401;
   * otherwise the request goes on with the merchant holding the key.
   */
  function AuthenticateApiKey(apiKey: Option<string>, merchants: map<MerchantId, Merchant>, lookupThrows: bool): (d: Decision)
    requires UniqueApiKeys(merchants)
    ensures apiKey.None? || apiKey == Some("") ==> d == Reject(401, API_KEY_REQUIRED)
    ensures apiKey.Some? && Present(apiKey.value) && lookupThrows ==> d == Reject(500, AUTHENTICATION_FAILED)
    ensures apiKey.Some? && Present(apiKey.value) && !lookupThrows && !HasApiKey(merchants, apiKey.value) ==>
      d == Reject(401, INVALID_API_KEY)
    ensures d.Next? <==> apiKey.Some? && Present(apiKey.value) && !lookupThrows && HasApiKey(merchants, apiKey.value)
    ensures d.Next? ==> d.merchant.apiKey == apiKey.value && d.merchant in merchants.Values
  {
    if apiKey.None? || apiKey.value == "" then Reject(401, API_KEY_REQUIRED)
    else if lookupThrows then Reject(500, AUTHENTICATION_FAILED)
    else
      match FindByApiKey(merchants, apiKey.value)
      case None => Reject(401, INVALID_API_KEY)
      case Some(id) => Next(merchants[id])
  }

  /**
   * After a successful key rotation the new key authenticates the same
   * merchant and the old key no longer authenticates anyone.
   */
  lemma RotationRevokesOldKey(docs: map<MerchantId, Merchant>, id: MerchantId, newKey: string, now: Time)
    requires ValidStore(docs)
    requires MerchantController.Regenerate(docs, id, newKey, now).reply.code == 200
    ensures var after := MerchantController.Regenerate(docs, id, newKey, now).merchants;
      && id in after
      && AuthenticateApiKey(Some(newKey), after, false) == Next(after[id])
      && (docs[id].apiKey != newKey ==> AuthenticateApiKey(Some(docs[id].apiKey), after, false) == Reject(401, INVALID_API_KEY))
  {
    var after := MerchantController.Regenerate(docs, id, newKey, now).merchants;
    assert after[id].apiKey == newKey;
    var found := FindByApiKey(after, newKey);
    assert found.Some? && found.value == id;
    if docs[id].apiKey != newKey {
      var oldKey := docs[id].apiKey;
      assert Present(oldKey);
      forall other | other in after ensures after[other].apiKey != oldKey {
        if other != id {
          assert after[other] == docs[other];
        }
      }
    }
  }

  /** The request and response objects as the middleware touches them. */
  class Exchange {
    /** `req.merchant`. */
    var merchant: Option<Merchant>
    /** How many times `next()` has been called. */
    var nextCalls: nat
    /** The status and error sent with `res.status(...).json(...)`, if any. */
    var response: Option<(nat, string)>

    constructor ()
      ensures merchant.None? && nextCalls == 0 && response.None?
    {
      merchant, nextCalls, response := None, 0, None;
    }

    /** Carries out a decision: set `req.merchant` and call `next()` once, or send the error. */
    ghost predicate Performed(d: Decision, oldMerchant: Option<Merchant>, oldNextCalls: nat, oldResponse: Option<(nat, string)>)
      reads this
    {
      match d
      case Next(m) => merchant == Some(m) && nextCalls == oldNextCalls + 1 && response == oldResponse
      case Reject(code, error) => response == Some((code, error)) && merchant == oldMerchant && nextCalls == oldNextCalls
    }
  }

  method RunAuthenticateMerchant(
    ex: Exchange, authorization: Option<string>, verify: string -> Option<Claims>,
    merchants: MerchantCollection, lookupThrows: bool)
    modifies ex
    ensures ex.Performed(AuthenticateMerchant(authorization, verify, merchants.docs, lookupThrows),
                         old(ex.merchant), old(ex.nextCalls), old(ex.response))
  {
    if authorization.None? || !StartsWith(authorization.value, BEARER) {
      ex.response := Some((401, NO_TOKEN));
      return;
    }
    var token := ReplaceFirst(authorization.value, BEARER, "");
    var decoded := verify(token);
    if decoded.None? || lookupThrows {
      ex.response := Some((401, TOKEN_NOT_VALID));
      return;
    }
    var merchantId := decoded.value.merchantId;
    if merchantId.None? || merchantId.value !in merchants.docs {
      ex.response := Some((401, INVALID_TOKEN));
      return;
    }
    ex.merchant := Some(merchants.docs[merchantId.value]);
    ex.nextCalls := ex.nextCalls + 1;
  }

  method RunAuthenticateApiKey(ex: Exchange, apiKey: Option<string>, merchants: MerchantCollection, lookupThrows: bool)
    requires merchants.Valid()
    modifies ex
    ensures ex.Performed(AuthenticateApiKey(apiKey, merchants.docs, lookupThrows),
                         old(ex.merchant), old(ex.nextCalls), old(ex.response))
  {
    if apiKey.None? || apiKey.value == "" {
      ex.response := Some((401, API_KEY_REQUIRED));
      return;
    }
    if lookupThrows {
      ex.response := Some((500, AUTHENTICATION_FAILED));
      return;
    }
    var found := FindByApiKey(merchants.docs, apiKey.value);
    if found.None? {
      ex.response := Some((401, INVALID_API_KEY));
      return;
    }
    ex.merchant := Some(merchants.docs[found.value]);
    ex.nextCalls := ex.nextCalls + 1;
  }
}
