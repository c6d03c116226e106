/**
 * The Merchant schema: its record, the defaults Mongoose fills in, the
 * required paths, the unique indexes on `email` and `apiKey`, and the
 * collection that enforces them when a document is saved.
 */
module MerchantModel {
  import opened Wrappers
  import opened Mongo

  type MerchantId = ObjectId

  const DEFAULT_SETTLEMENT_CURRENCY: string := "USDC"
  const DEFAULT_MIN_SETTLEMENT_AMOUNT: int := 1
  const DEFAULT_AUTO_SETTLEMENT: bool := true

  datatype Merchant = Merchant(
    name: string,
    email: string,
    walletAddress: string,
    settlementCurrency: string,
    minSettlementAmount: int,
    autoSettlement: bool,
    apiKey: string,
    webhookUrl: Option<string>,
    createdAt: Time,
    updatedAt: Time)
  {
    /** The required String paths are all present. */
    predicate HasRequired() {
      Present(name) && Present(email) && Present(walletAddress) && Present(apiKey)
    }
  }

  /**
   * `new Merchant({name, email, walletAddress, apiKey})`: every other path
   * takes its schema default; the timestamps are set by the first save.
   */
  function NewMerchant(name: string, email: string, walletAddress: string, apiKey: string): (m: Merchant)
    ensures m.name == name && m.email == email && m.walletAddress == walletAddress && m.apiKey == apiKey
    ensures m.settlementCurrency == "USDC" && m.minSettlementAmount == 1 && m.autoSettlement
    ensures m.webhookUrl.None?
    ensures m.HasRequired() <==> Present(name) && Present(email) && Present(walletAddress) && Present(apiKey)
  {
    Merchant(name, email, walletAddress, DEFAULT_SETTLEMENT_CURRENCY, DEFAULT_MIN_SETTLEMENT_AMOUNT,
             DEFAULT_AUTO_SETTLEMENT, apiKey, None, 0, 0)
  }

  /** Some merchant in `docs` has this email (`findOne({ email })` finds a document). */
  predicate HasEmail(docs: map<MerchantId, Merchant>, email: string) {
    exists id :: id in docs && docs[id].email == email
  }

  /** Some merchant in `docs` has this API key (`findOne({ apiKey })` finds a document). */
  predicate HasApiKey(docs: map<MerchantId, Merchant>, key: string) {
    exists id :: id in docs && docs[id].apiKey == key
  }

  ghost predicate UniqueEmails(docs: map<MerchantId, Merchant>) {
    forall a, b | a in docs && b in docs && docs[a].email == docs[b].email :: a == b
  }

  ghost predicate UniqueApiKeys(docs: map<MerchantId, Merchant>) {
    forall a, b | a in docs && b in docs && docs[a].apiKey == docs[b].apiKey :: a == b
  }

  /** What the schema guarantees of every stored merchant collection. */
  ghost predicate ValidStore(docs: map<MerchantId, Merchant>) {
    && (forall id | id in docs :: docs[id].HasRequired())
    && UniqueEmails(docs)
    && UniqueApiKeys(docs)
  }

  /**
   * Whether saving `m` under `id` passes validation and the unique indexes:
   * no OTHER document may hold its email or API key.
   */
  predicate SaveAccepted(docs: map<MerchantId, Merchant>, id: MerchantId, m: Merchant) {
    m.HasRequired() && !HasEmail(docs - {id}, m.email) && !HasApiKey(docs - {id}, m.apiKey)
  }

  lemma SaveKeepsValid(docs: map<MerchantId, Merchant>, id: MerchantId, m: Merchant)
    requires ValidStore(docs) && SaveAccepted(docs, id, m)
    ensures ValidStore(docs[id := m])
  {
    var d := docs[id := m];
    forall a, b | a in d && b in d && a != b ensures d[a].email != d[b].email && d[a].apiKey != d[b].apiKey {
      if a == id || b == id {
        var other := if a == id then b else a;
        assert other in docs - {id};
      }
    }
  }

  /**
   * `findOne({ apiKey })`. The unique index on `apiKey` makes the match,
   * when there is one, the only one.
   */
  function FindByApiKey(docs: map<MerchantId, Merchant>, key: string): (r: Option<MerchantId>)
    requires UniqueApiKeys(docs)
    ensures r.Some? <==> HasApiKey(docs, key)
    ensures r.Some? ==> r.value in docs && docs[r.value].apiKey == key
  {
    if HasApiKey(docs, key) then
      var id :| id in docs && docs[id].apiKey == key; Some(id)
    else None
  }

  /**
   * Fields no operation changes: a merchant once stored keeps its id, name,
   * email, wallet address and creation time.
   */
  ghost predicate Preserves(before: map<MerchantId, Merchant>, after: map<MerchantId, Merchant>) {
    forall id | id in before ::
      && id in after
      && after[id].name == before[id].name
      && after[id].email == before[id].email
      && after[id].walletAddress == before[id].walletAddress
      && after[id].createdAt == before[id].createdAt
  }

  /**
   * The version `save()` writes for a loaded merchant under `timestamps`:
   * `updatedAt` moves to `now` only when some path differs from the stored
   * document, and an unmodified document is written back as it was.
   */
  function Resaved(docs: map<MerchantId, Merchant>, id: MerchantId, m: Merchant, now: Time): (r: Merchant)
    ensures r.(updatedAt := m.updatedAt) == m
    ensures id in docs && docs[id] == m ==> r == docs[id]
    ensures !(id in docs && docs[id] == m) ==> r.updatedAt == now
  {
    if id in docs && docs[id] == m then m else m.(updatedAt := now)
  }

  /** The Merchant model's collection: documents by `_id`. */
  class MerchantCollection {
    var docs: map<MerchantId, Merchant>

    ghost predicate Valid()
      reads this
    {
      ValidStore(docs)
    }

    constructor ()
      ensures Valid() && docs == map[]
    {
      docs := map[];
    }

    /**
     * `save()` on a new document: validation, the unique indexes on `_id`,
     * `email` and `apiKey`, and both timestamps set to `now`.
     */
    method Insert(id: MerchantId, m: Merchant, now: Time) returns (ok: bool, stored: Merchant)
      requires Valid()
      modifies this
      ensures Valid()
      ensures stored == m.(createdAt := now, updatedAt := now)
      ensures ok <==> id !in old(docs) && SaveAccepted(old(docs), id, m)
      ensures docs == if ok then old(docs)[id := stored] else old(docs)
    {
      stored := m.(createdAt := now, updatedAt := now);
      ok := id !in docs && SaveAccepted(docs, id, m);
      if ok {
        SaveKeepsValid(docs, id, stored);
        docs := docs[id := stored];
      }
    }

    /**
     * `save()` on a loaded document: validation, the unique indexes against
     * the other documents, and `updatedAt` moved to `now` if it was modified.
     */
    method Save(id: MerchantId, m: Merchant, now: Time) returns (ok: bool, stored: Merchant)
      requires Valid()
      modifies this
      ensures Valid()
      ensures stored == Resaved(old(docs), id, m, now)
      ensures ok <==> SaveAccepted(old(docs), id, m)
      ensures docs == if ok then old(docs)[id := stored] else old(docs)
    {
      stored := Resaved(docs, id, m, now);
      ok := SaveAccepted(docs, id, m);
      if ok {
        SaveKeepsValid(docs, id, stored);
        docs := docs[id := stored];
      }
    }
  }
}
