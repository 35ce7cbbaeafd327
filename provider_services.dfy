/**
 * The provider service (server/src/app/provider/provider.services.ts): a
 * check of the fields the provider type needs, then one insert.
 */
module ProviderServices {
  import opened Wrappers
  import opened Exception
  import opened Domain
  import opened Persistence
  import ProviderRepository
  import ProviderValidator

  const IndividualFieldsRequired :=
    Fail("VALIDATION ERROR", "Individual provider requires first name, last name, and full name", BAD_REQUEST)
  const CompanyFieldsRequired :=
    Fail("VALIDATION ERROR", "Company provider requires company name and business tax number", BAD_REQUEST)

  /**
   * The type-conditional field check: an individual needs all three name
   * fields non-empty, a company needs both company fields present and
   * non-empty, and any other type is not checked.
   */
  function CheckProviderFields(data: ProviderBody): (r: Result<(), Thrown>)
    ensures data.providerType == "INDIVIDUAL" ==>
      (r.Err? <==> data.firstName == "" || data.lastName == "" || data.fullName == "")
    ensures data.providerType == "INDIVIDUAL" && r.Err? ==> r.error == IndividualFieldsRequired
    ensures data.providerType == "COMPANY" ==>
      (r.Err? <==> !Truthy(data.companyName) || !Truthy(data.businessTaxNumber))
    ensures data.providerType == "COMPANY" && r.Err? ==> r.error == CompanyFieldsRequired
    ensures data.providerType != "INDIVIDUAL" && data.providerType != "COMPANY" ==> r.Ok?
    ensures r.Err? ==> StatusOf(r.error) == BAD_REQUEST
  {
    if data.providerType == "INDIVIDUAL" then
      if data.firstName == "" || data.lastName == "" || data.fullName == "" then Err(IndividualFieldsRequired) else Ok(())
    else if data.providerType == "COMPANY" then
      if !Truthy(data.companyName) || !Truthy(data.businessTaxNumber) then Err(CompanyFieldsRequired) else Ok(())
    else Ok(())
  }

  /** The service check passes exactly when the schema's refinement holds. */
  lemma CheckIsRefinement(data: ProviderBody)
    ensures CheckProviderFields(data).Ok? <==> ProviderValidator.RefineHolds(data)
  {
  }

  /** A body the sign-up schema accepts never fails the service check. */
  lemma SchemaImpliesCheck(data: ProviderBody, emailOk: bool)
    requires ProviderValidator.ProviderSchema(data, emailOk)
    ensures CheckProviderFields(data).Ok?
  {
    CheckIsRefinement(data);
  }

  /** `createProvider`: the field check, then the body is stored unchanged. */
  method CreateProvider(db: Store, data: ProviderBody) returns (r: Result<Provider, Thrown>)
    requires db.Valid()
    modifies db`providers
    ensures db.Valid()
    ensures r.Err? <==> CheckProviderFields(data).Err?
    ensures r.Err? ==> r.error == CheckProviderFields(data).error && db.providers == old(db.providers)
    ensures r.Ok? ==>
      && r.value.data == data
      && r.value.id !in old(db.providers) && db.providers == old(db.providers)[r.value.id := r.value]
  {
    var _ :- CheckProviderFields(data);
    var provider := ProviderRepository.CreateProvider(db, data);
    r := Ok(provider);
  }
}
