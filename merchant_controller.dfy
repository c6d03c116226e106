/**
 * The merchant controller: registration, the profile, the settings
 * update and API-key rotation, over the merchant collection.
 *
 * As for payments, each operation is a function giving the reply and the
 * collection afterwards, and a method performing the steps on the
 * collection, proved to agree with it. Address validation, key
 * generation and token signing are supplied by the caller.
 */
module MerchantController {
  import opened Wrappers
  import opened Mongo
  import opened Services
  import opened MerchantModel

  const INVALID_WALLET: string := "Invalid Solana wallet address"
  const ALREADY_EXISTS: string := "Merchant already exists"
  const REGISTER_FAILED: string := "Failed to register merchant"
  const MERCHANT_NOT_FOUND: string := "Merchant not found"
  const UPDATE_FAILED: string := "Failed to update merchant settings"
  const REGENERATE_FAILED: string := "Failed to regenerate API key"

  /** A merchant as `select('-apiKey')` returns it: every path but the API key. */
  datatype Profile = Profile(
    id: MerchantId,
    name: string,
    email: string,
    walletAddress: string,
    settlementCurrency: string,
    minSettlementAmount: int,
    autoSettlement: bool,
    webhookUrl: Option<string>,
    createdAt: Time,
    updatedAt: Time)

  datatype Body =
    | ErrorBody(error: string)
    | Registered(id: MerchantId, name: string, email: string, walletAddress: string, apiKey: string, token: string)
    | ProfileBody(profile: Profile)
    | MerchantBody(id: MerchantId, merchant: Merchant)
    | ApiKeyBody(apiKey: string)

  /** An HTTP status code and the JSON body sent with it. */
  datatype Reply = Reply(code: nat, body: Body)

  /** A request's reply and the merchant collection it leaves behind. */
  datatype Effect = Effect(reply: Reply, merchants: map<MerchantId, Merchant>)

  /** The settings a request may carry; `None` is a path left `undefined`. */
  datatype Settings = Settings(minSettlementAmount: Option<int>, autoSettlement: Option<bool>, webhookUrl: Option<string>)

  /** A merchant rebuilt from its profile and its API key. */
  function WithApiKey(pr: Profile, apiKey: string): Merchant {
    Merchant(pr.name, pr.email, pr.walletAddress, pr.settlementCurrency, pr.minSettlementAmount,
             pr.autoSettlement, apiKey, pr.webhookUrl, pr.createdAt, pr.updatedAt)
  }

  /** The profile of merchant `id`: it drops the API key and nothing else. */
  function ProfileOf(id: MerchantId, m: Merchant): (pr: Profile)
    ensures pr.id == id && WithApiKey(pr, m.apiKey) == m
  {
    Profile(id, m.name, m.email, m.walletAddress, m.settlementCurrency, m.minSettlementAmount,
            m.autoSettlement, m.webhookUrl, m.createdAt, m.updatedAt)
  }

  lemma RemoveAbsent(docs: map<MerchantId, Merchant>, id: MerchantId)
    requires id !in docs
    ensures docs - {id} == docs
  {
  }

  /**
   * A stored merchant saved again with its own email and API key passes
   * the unique indexes.
   */
  lemma ResaveAccepted(docs: map<MerchantId, Merchant>, id: MerchantId, m: Merchant)
    requires ValidStore(docs) && id in docs
    requires m.HasRequired() && m.email == docs[id].email && m.apiKey == docs[id].apiKey
    ensures SaveAccepted(docs, id, m)
  {
    forall other | other in docs - {id}
      ensures docs[other].email != m.email && docs[other].apiKey != m.apiKey
    {
    }
  }

  // ---------------------------------------------------------------- registerMerchant

  /**
   * registerMerchant: an invalid wallet address and an email already in
   * use are refused with 400 before anything is stored; otherwise the new
   * merchant, with its fresh API key and schema defaults, is inserted
   * under `newId` unless the save is refused (a required path empty, or
   * the id or key taken), which answers 500.
   */
  function Register(
    docs: map<MerchantId, Merchant>, name: string, email: string, walletAddress: string,
    publicKey: string -> Call<string>, apiKey: string, newId: MerchantId,
    sign: MerchantId -> string, now: Time): (e: Effect)
    ensures e.reply.code == 201 || e.reply.code == 400 || e.reply.code == 500
    ensures publicKey(walletAddress).Threw? ==> e == Effect(Reply(400, ErrorBody(INVALID_WALLET)), docs)
    ensures publicKey(walletAddress).Returned? && HasEmail(docs, email) ==>
      e == Effect(Reply(400, ErrorBody(ALREADY_EXISTS)), docs)
    ensures e.reply.code != 201 ==> e.merchants == docs
    ensures publicKey(walletAddress).Returned? && !HasEmail(docs, email) && e.reply.code != 201 ==>
      e.reply == Reply(500, ErrorBody(REGISTER_FAILED))
    ensures e.reply.code == 201 <==>
      && publicKey(walletAddress).Returned?
      && !HasEmail(docs, email) && !HasApiKey(docs, apiKey) && newId !in docs
      && Present(name) && Present(email) && Present(walletAddress) && Present(apiKey)
    ensures e.reply.code == 201 ==>
      && e.merchants == docs[newId := NewMerchant(name, email, walletAddress, apiKey).(createdAt := now, updatedAt := now)]
      && e.reply.body == Registered(newId, name, email, walletAddress, apiKey, sign(newId))
    ensures ValidStore(docs) ==> ValidStore(e.merchants)
    ensures Preserves(docs, e.merchants)
  {
    if publicKey(walletAddress).Threw? then
      Effect(Reply(400, ErrorBody(INVALID_WALLET)), docs)
    else if HasEmail(docs, email) then
      Effect(Reply(400, ErrorBody(ALREADY_EXISTS)), docs)
    else
      var m := NewMerchant(name, email, walletAddress, apiKey);
      if newId !in docs && SaveAccepted(docs, newId, m) then
        var stored := m.(createdAt := now, updatedAt := now);
        RemoveAbsent(docs, newId);
        assert ValidStore(docs) ==> ValidStore(docs[newId := stored]) by {
          if ValidStore(docs) { SaveKeepsValid(docs, newId, stored); }
        }
        Effect(Reply(201, Registered(newId, stored.name, stored.email, stored.walletAddress, stored.apiKey, sign(newId))),
               docs[newId := stored])
      else
        Effect(Reply(500, ErrorBody(REGISTER_FAILED)), docs)
  }

  method RegisterMerchant(
    merchants: MerchantCollection, name: string, email: string, walletAddress: string,
    publicKey: string -> Call<string>, apiKey: string, newId: MerchantId,
    sign: MerchantId -> string, now: Time) returns (reply: Reply)
    requires merchants.Valid()
    modifies merchants
    ensures merchants.Valid()
    ensures Effect(reply, merchants.docs) == Register(old(merchants.docs), name, email, walletAddress, publicKey, apiKey, newId, sign, now)
  {
    if publicKey(walletAddress).Threw? {
      return Reply(400, ErrorBody(INVALID_WALLET));
    }
    if HasEmail(merchants.docs, email) {
      return Reply(400, ErrorBody(ALREADY_EXISTS));
    }
    var merchant := NewMerchant(name, email, walletAddress, apiKey);
    var ok;
    ok, merchant := merchants.Insert(newId, merchant, now);
    if !ok {
      return Reply(500, ErrorBody(REGISTER_FAILED));
    }
    var token := sign(newId);
    reply := Reply(201, Registered(newId, merchant.name, merchant.email, merchant.walletAddress, merchant.apiKey, token));
  }

  // ---------------------------------------------------------------- getMerchantProfile

  /** getMerchantProfile: 404 for an unknown id, otherwise the merchant without its API key. */
  function GetMerchantProfile(docs: map<MerchantId, Merchant>, id: MerchantId): (r: Reply)
    ensures id !in docs ==> r == Reply(404, ErrorBody(MERCHANT_NOT_FOUND))
    ensures id in docs ==>
      && r.code == 200 && r.body.ProfileBody?
      && r.body.profile.id == id && WithApiKey(r.body.profile, docs[id].apiKey) == docs[id]
  {
    if id !in docs then Reply(404, ErrorBody(MERCHANT_NOT_FOUND))
    else Reply(200, ProfileBody(ProfileOf(id, docs[id])))
  }

  /** Changing a merchant's API key does not change its profile: the key never leaks through it. */
  lemma ProfileIgnoresApiKey(docs: map<MerchantId, Merchant>, id: MerchantId, key: string)
    requires id in docs
    ensures GetMerchantProfile(docs[id := docs[id].(apiKey := key)], id) == GetMerchantProfile(docs, id)
  {
  }

  // ---------------------------------------------------------------- updateMerchantSettings

  /**
   * The settings update on one merchant: each supplied setting replaces
   * the stored one, each `undefined` one is left alone, and no other path
   * changes.
   */
  function ApplySettings(m: Merchant, s: Settings): (r: Merchant)
    ensures r.(minSettlementAmount := m.minSettlementAmount, autoSettlement := m.autoSettlement, webhookUrl := m.webhookUrl) == m
    ensures r.minSettlementAmount == if s.minSettlementAmount.Some? then s.minSettlementAmount.value else m.minSettlementAmount
    ensures r.autoSettlement == if s.autoSettlement.Some? then s.autoSettlement.value else m.autoSettlement
    ensures r.webhookUrl == if s.webhookUrl.Some? then s.webhookUrl else m.webhookUrl
    ensures s == Settings(None, None, None) ==> r == m
  {
    m.(minSettlementAmount := s.minSettlementAmount.GetOr(m.minSettlementAmount),
       autoSettlement := s.autoSettlement.GetOr(m.autoSettlement),
       webhookUrl := if s.webhookUrl.Some? then s.webhookUrl else m.webhookUrl)
  }

  lemma ApplySettingsIdempotent(m: Merchant, s: Settings)
    ensures ApplySettings(ApplySettings(m, s), s) == ApplySettings(m, s)
  {
  }

  /**
   * updateMerchantSettings: 404 for an unknown id; otherwise the merchant
   * with the supplied settings applied is saved and returned, and every
   * other merchant is untouched.
   */
  function Update(docs: map<MerchantId, Merchant>, id: MerchantId, s: Settings, now: Time): (e: Effect)
    ensures e.reply.code == 200 || e.reply.code == 404 || e.reply.code == 500
    ensures id !in docs ==> e == Effect(Reply(404, ErrorBody(MERCHANT_NOT_FOUND)), docs)
    ensures ValidStore(docs) && id in docs ==> e.reply.code == 200
    ensures e.reply.code != 200 ==> e.merchants == docs
    ensures id in docs && e.reply.code != 200 ==> e.reply == Reply(500, ErrorBody(UPDATE_FAILED))
    ensures e.reply.code == 200 ==>
      && id in docs
      && e.merchants == docs[id := Resaved(docs, id, ApplySettings(docs[id], s), now)]
      && e.reply.body == MerchantBody(id, e.merchants[id])
    ensures ValidStore(docs) ==> ValidStore(e.merchants)
    ensures Preserves(docs, e.merchants)
  {
    if id !in docs then
      Effect(Reply(404, ErrorBody(MERCHANT_NOT_FOUND)), docs)
    else
      var m := ApplySettings(docs[id], s);
      if SaveAccepted(docs, id, m) then
        var stored := Resaved(docs, id, m, now);
        assert ValidStore(docs) ==> ValidStore(docs[id := stored]) by {
          if ValidStore(docs) { SaveKeepsValid(docs, id, stored); }
        }
        Effect(Reply(200, MerchantBody(id, stored)), docs[id := stored])
      else
        assert ValidStore(docs) ==> SaveAccepted(docs, id, m) by {
          if ValidStore(docs) { ResaveAccepted(docs, id, m); }
        }
        Effect(Reply(500, ErrorBody(UPDATE_FAILED)), docs)
  }

  method UpdateMerchantSettings(merchants: MerchantCollection, id: MerchantId, s: Settings, now: Time) returns (reply: Reply)
    requires merchants.Valid()
    modifies merchants
    ensures merchants.Valid()
    ensures Effect(reply, merchants.docs) == Update(old(merchants.docs), id, s, now)
  {
    if id !in merchants.docs {
      return Reply(404, ErrorBody(MERCHANT_NOT_FOUND));
    }
    var merchant := merchants.docs[id];
    if s.minSettlementAmount.Some? {
      merchant := merchant.(minSettlementAmount := s.minSettlementAmount.value);
    }
    if s.autoSettlement.Some? {
      merchant := merchant.(autoSettlement := s.autoSettlement.value);
    }
    if s.webhookUrl.Some? {
      merchant := merchant.(webhookUrl := s.webhookUrl);
    }
    ResaveAccepted(merchants.docs, id, merchant);
    var ok;
    // The email and API key are the merchant's own, so the save is accepted.
    ok, merchant := merchants.Save(id, merchant, now);
    reply := Reply(200, MerchantBody(id, merchant));
  }

  /**
   * An update that supplies no setting saves an unmodified document: the
   * reply is the stored merchant and nothing changes, not even `updatedAt`.
   */
  lemma UpdateWithoutSettingsKeepsStore(docs: map<MerchantId, Merchant>, id: MerchantId, now: Time)
    requires ValidStore(docs) && id in docs
    ensures Update(docs, id, Settings(None, None, None), now) == Effect(Reply(200, MerchantBody(id, docs[id])), docs)
  {
    assert docs[id := docs[id]] == docs;
  }

  /**
   * Sending the same settings again, at any later time, changes nothing:
   * the merchant they leave is unmodified by the second save.
   */
  lemma UpdateRepeatedKeepsStore(docs: map<MerchantId, Merchant>, id: MerchantId, s: Settings, now: Time, later: Time)
    requires ValidStore(docs) && id in docs
    ensures var once := Update(docs, id, s, now).merchants;
      Update(once, id, s, later).merchants == once
  {
    var once := Update(docs, id, s, now).merchants;
    ApplySettingsIdempotent(docs[id], s);
    assert ApplySettings(once[id], s) == once[id];
    assert once[id := once[id]] == once;
  }

  // ---------------------------------------------------------------- regenerateApiKey

  /**
   * regenerateApiKey: 404 for an unknown id; otherwise only the API key is
   * replaced and the new key returned, unless the save is refused (the
   * key empty or held by another merchant), which answers 500.
   */
  function Regenerate(docs: map<MerchantId, Merchant>, id: MerchantId, newKey: string, now: Time): (e: Effect)
    ensures e.reply.code == 200 || e.reply.code == 404 || e.reply.code == 500
    ensures id !in docs ==> e == Effect(Reply(404, ErrorBody(MERCHANT_NOT_FOUND)), docs)
    ensures ValidStore(docs) ==>
      (e.reply.code == 200 <==> id in docs && Present(newKey) && !HasApiKey(docs - {id}, newKey))
    ensures e.reply.code != 200 ==> e.merchants == docs
    ensures id in docs && e.reply.code != 200 ==> e.reply == Reply(500, ErrorBody(REGENERATE_FAILED))
    ensures e.reply.code == 200 ==>
      && id in docs
      && e.merchants == docs[id := Resaved(docs, id, docs[id].(apiKey := newKey), now)]
      && e.reply.body == ApiKeyBody(newKey)
    ensures ValidStore(docs) ==> ValidStore(e.merchants)
    ensures Preserves(docs, e.merchants)
  {
    if id !in docs then
      Effect(Reply(404, ErrorBody(MERCHANT_NOT_FOUND)), docs)
    else
      var m := docs[id].(apiKey := newKey);
      if SaveAccepted(docs, id, m) then
        var stored := Resaved(docs, id, m, now);
        assert ValidStore(docs) ==> ValidStore(docs[id := stored]) by {
          if ValidStore(docs) { SaveKeepsValid(docs, id, stored); }
        }
        Effect(Reply(200, ApiKeyBody(stored.apiKey)), docs[id := stored])
      else
        assert ValidStore(docs) && Present(newKey) ==> HasEmail(docs - {id}, m.email) || HasApiKey(docs - {id}, newKey) by {
          if ValidStore(docs) && Present(newKey) && !HasApiKey(docs - {id}, newKey) {
            ResaveAccepted(docs, id, docs[id]);
          }
        }
        Effect(Reply(500, ErrorBody(REGENERATE_FAILED)), docs)
  }

  method RegenerateApiKey(merchants: MerchantCollection, id: MerchantId, newKey: string, now: Time) returns (reply: Reply)
    requires merchants.Valid()
    modifies merchants
    ensures merchants.Valid()
    ensures Effect(reply, merchants.docs) == Regenerate(old(merchants.docs), id, newKey, now)
  {
    if id !in merchants.docs {
      return Reply(404, ErrorBody(MERCHANT_NOT_FOUND));
    }
    var merchant := merchants.docs[id];
    merchant := merchant.(apiKey := newKey);
    var ok;
    ok, merchant := merchants.Save(id, merchant, now);
    if !ok {
      return Reply(500, ErrorBody(REGENERATE_FAILED));
    }
    reply := Reply(200, ApiKeyBody(merchant.apiKey));
  }
}
