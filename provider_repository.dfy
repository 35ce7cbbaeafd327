/** The provider repository (server/src/app/provider/provider.repository.ts). */
module ProviderRepository {
  import opened Wrappers
  import opened Domain
  import opened Persistence

  /** `createProvider`: stores the body exactly as given under a new id. */
  method CreateProvider(db: Store, data: ProviderBody) returns (provider: Provider)
    requires db.Valid()
    modifies db`providers
    ensures db.Valid()
    ensures provider.data == data
    ensures provider.id !in old(db.providers) && db.providers == old(db.providers)[provider.id := provider]
  {
    var id := NewId(db.providers.Keys);
    provider := Provider(id, data);
    db.providers := db.providers[id := provider];
  }
}
