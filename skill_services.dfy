/**
 * The skill service (server/src/app/skill/skill.services.ts): required-value
 * checks, ownership checks and range checks in front of the skill writes.
 */
module SkillServices {
  import opened Wrappers
  import opened Exception
  import opened Domain
  import opened Persistence
  import SkillRepository

  const IdRequired := Fail("VALIDATION ERROR", "ID is required", BAD_REQUEST)
  const ProviderIdRequired := Fail("VALIDATION ERROR", "Provider ID is required", BAD_REQUEST)
  const CategoryRequired := Fail("VALIDATION ERROR", "Category is required", BAD_REQUEST)
  const MissingFields := Fail("VALIDATION ERROR", "Missing required fields for skill creation", BAD_REQUEST)
  const ProviderNotFound := Fail("NOT FOUND", "Provider not found", NOT_FOUND)
  const NegativeExperience := Fail("VALIDATION ERROR", "Experience cannot be negative", BAD_REQUEST)
  const RateNotPositive := Fail("VALIDATION ERROR", "Hourly rate must be positive", BAD_REQUEST)
  const SkillNotFound := Fail("NOT FOUND", "Skill not found", NOT_FOUND)
  const UpdateForbidden := Fail("FORBIDDEN", "Only the skill owner can update the skill", FORBIDDEN)
  const DeleteForbidden := Fail("FORBIDDEN", "Only the skill owner can delete the skill", FORBIDDEN)

  /** A required string: absent or empty fails with the given error, otherwise it is returned as given. */
  function Required(value: Option<string>, error: Thrown): (r: Result<string, Thrown>)
    ensures r.Ok? <==> Truthy(value)
    ensures r.Ok? ==> r.value == value.value && r.value != ""
    ensures r.Err? ==> r.error == error
  {
    if Truthy(value) then Ok(value.value) else Err(error)
  }

  /** `validateId` */
  function ValidateId(id: Option<string>): (r: Result<string, Thrown>)
    ensures r.Ok? <==> id.Some? && id.value != ""
    ensures r.Ok? ==> Some(r.value) == id
    ensures r.Err? ==> r.error == IdRequired && StatusOf(r.error) == BAD_REQUEST
  {
    Required(id, IdRequired)
  }

  /** `validateProviderId` */
  function ValidateProviderId(providerId: Option<string>): (r: Result<string, Thrown>)
    ensures r.Ok? <==> providerId.Some? && providerId.value != ""
    ensures r.Ok? ==> Some(r.value) == providerId
    ensures r.Err? ==> r.error == ProviderIdRequired && StatusOf(r.error) == BAD_REQUEST
  {
    Required(providerId, ProviderIdRequired)
  }

  /** `validateCategory` */
  function ValidateCategory(category: Option<string>): (r: Result<string, Thrown>)
    ensures r.Ok? <==> category.Some? && category.value != ""
    ensures r.Ok? ==> Some(r.value) == category
    ensures r.Err? ==> r.error == CategoryRequired && StatusOf(r.error) == BAD_REQUEST
  {
    Required(category, CategoryRequired)
  }

  /** JavaScript truthiness of optional numbers: absent and zero are falsy. */
  predicate TruthyInt(n: Option<int>) { n.Some? && n.value != 0 }
  predicate TruthyReal(x: Option<real>) { x.Some? && x.value != 0.0 }

  /** The first check of `createSkill`: some required field is falsy. */
  predicate MissingRequiredField(data: SkillDraft)
  {
    !Truthy(data.category) || !TruthyInt(data.experience) || !Truthy(data.workNature) ||
    !TruthyReal(data.hourlyRate) || !Truthy(data.providerId)
  }

  /**
   * `createSkill`: BAD_REQUEST when a required field is falsy (so zero
   * experience and a zero rate fail here), then NOT_FOUND for an unknown
   * provider, then BAD_REQUEST for negative experience, then for a rate that
   * is not positive; otherwise the skill is stored.
   */
  method CreateSkill(db: Store, data: SkillDraft) returns (r: Result<Skill, Thrown>)
    requires db.Valid()
    modifies db`skills
    ensures db.Valid()
    ensures MissingRequiredField(data) ==> r == Err(MissingFields)
    ensures (!MissingRequiredField(data) && data.providerId.value !in db.providers) ==> r == Err(ProviderNotFound)
    ensures (!MissingRequiredField(data) && data.providerId.value in db.providers &&
             data.experience.value < 0) ==> r == Err(NegativeExperience)
    ensures (!MissingRequiredField(data) && data.providerId.value in db.providers &&
             data.experience.value >= 0 && data.hourlyRate.value <= 0.0) ==> r == Err(RateNotPositive)
    ensures r.Ok? <==>
      && !MissingRequiredField(data) && data.providerId.value in db.providers
      && data.experience.value > 0 && data.hourlyRate.value > 0.0
    ensures r.Err? ==> db.skills == old(db.skills)
    ensures r.Ok? ==>
      && r.value.id !in old(db.skills) && db.skills == old(db.skills)[r.value.id := r.value]
      && r.value == Skill(r.value.id, data.category.value, data.experience.value, data.workNature.value,
                          data.hourlyRate.value, data.providerId.value)
  {
    if MissingRequiredField(data) {
      return Err(MissingFields);
    }
    var provider := Lookup(db.providers, data.providerId.value);
    if provider.None? {
      return Err(ProviderNotFound);
    }
    if data.experience.value < 0 {
      return Err(NegativeExperience);
    }
    if data.hourlyRate.value <= 0.0 {
      return Err(RateNotPositive);
    }
    var skill := SkillRepository.Create(db, data.category.value, data.experience.value, data.workNature.value,
                                        data.hourlyRate.value, data.providerId.value);
    r := Ok(skill);
  }

  /** Zero experience or a zero rate never gets past the required-field check. */
  lemma ZeroIsMissing(data: SkillDraft)
    requires data.experience == Some(0) || data.hourlyRate == Some(0.0)
    ensures MissingRequiredField(data)
  {
  }

  /** `getSkillById`: BAD_REQUEST for a missing id, NOT_FOUND for an unknown skill. */
  method GetSkillById(db: Store, id: Option<string>) returns (r: Result<Skill, Thrown>)
    ensures !Truthy(id) ==> r == Err(IdRequired)
    ensures Truthy(id) && id.value !in db.skills ==> r == Err(SkillNotFound)
    ensures r.Ok? <==> Truthy(id) && id.value in db.skills
    ensures r.Ok? ==> r.value == db.skills[id.value]
  {
    var validatedId :- ValidateId(id);
    var skill := Lookup(db.skills, validatedId);
    if skill.None? {
      return Err(SkillNotFound);
    }
    r := Ok(skill.value);
  }

  /** `getSkillsByProviderId`: BAD_REQUEST for a missing id, NOT_FOUND for an unknown provider. */
  method GetSkillsByProviderId(db: Store, providerId: Option<string>) returns (r: Result<set<Skill>, Thrown>)
    ensures !Truthy(providerId) ==> r == Err(ProviderIdRequired)
    ensures Truthy(providerId) && providerId.value !in db.providers ==> r == Err(ProviderNotFound)
    ensures r.Ok? <==> Truthy(providerId) && providerId.value in db.providers
    ensures r.Ok? ==> forall s :: s in r.value <==> s in db.skills.Values && s.providerId == providerId.value
  {
    var validatedProviderId :- ValidateProviderId(providerId);
    var provider := Lookup(db.providers, validatedProviderId);
    if provider.None? {
      return Err(ProviderNotFound);
    }
    r := Ok(SkillRepository.FindByProviderId(db.skills, validatedProviderId));
  }

  /**
   * `updateSkill`: BAD_REQUEST for a missing id, NOT_FOUND for an unknown
   * skill, FORBIDDEN for a caller who does not own it (nothing written in any
   * of these cases); then experience and rate are range-checked only when the
   * update carries them.
   */
  method UpdateSkill(db: Store, id: Option<string>, data: SkillDraft, providerId: Id) returns (r: Result<Skill, Thrown>)
    requires db.Valid()
    modifies db`skills
    ensures db.Valid()
    ensures !Truthy(id) ==> r == Err(IdRequired)
    ensures Truthy(id) && id.value !in old(db.skills) ==> r == Err(SkillNotFound)
    ensures (Truthy(id) && id.value in old(db.skills) && old(db.skills[id.value]).providerId != providerId) ==>
      r == Err(UpdateForbidden)
    ensures (Truthy(id) && id.value in old(db.skills) && old(db.skills[id.value]).providerId == providerId &&
             data.experience.Some? && data.experience.value < 0) ==> r == Err(NegativeExperience)
    ensures (Truthy(id) && id.value in old(db.skills) && old(db.skills[id.value]).providerId == providerId &&
             (data.experience.Some? ==> data.experience.value >= 0) &&
             data.hourlyRate.Some? && data.hourlyRate.value <= 0.0) ==> r == Err(RateNotPositive)
    ensures r.Ok? <==>
      && Truthy(id) && id.value in old(db.skills) && old(db.skills[id.value]).providerId == providerId
      && (data.experience.Some? ==> data.experience.value >= 0)
      && (data.hourlyRate.Some? ==> data.hourlyRate.value > 0.0)
    ensures r.Err? ==> db.skills == old(db.skills)
    ensures r.Ok? ==>
      && r.value == SkillRepository.ApplyDraft(old(db.skills[id.value]), data)
      && db.skills == old(db.skills)[id.value := r.value]
  {
    var validatedId :- ValidateId(id);
    var skill := Lookup(db.skills, validatedId);
    if skill.None? {
      return Err(SkillNotFound);
    }
    if skill.value.providerId != providerId {
      return Err(UpdateForbidden);
    }
    if data.experience.Some? && data.experience.value < 0 {
      return Err(NegativeExperience);
    }
    if data.hourlyRate.Some? && data.hourlyRate.value <= 0.0 {
      return Err(RateNotPositive);
    }
    var updated := SkillRepository.Update(db, validatedId, data);
    r := Ok(updated.value);
  }

  /**
   * `deleteSkill`: BAD_REQUEST for a missing id, NOT_FOUND for an unknown
   * skill, FORBIDDEN for a caller who does not own it; otherwise exactly that
   * skill is removed.
   */
  method DeleteSkill(db: Store, id: Option<string>, providerId: Id) returns (r: Result<Skill, Thrown>)
    requires db.Valid()
    modifies db`skills
    ensures db.Valid()
    ensures !Truthy(id) ==> r == Err(IdRequired)
    ensures Truthy(id) && id.value !in old(db.skills) ==> r == Err(SkillNotFound)
    ensures (Truthy(id) && id.value in old(db.skills) && old(db.skills[id.value]).providerId != providerId) ==>
      r == Err(DeleteForbidden)
    ensures r.Ok? <==> Truthy(id) && id.value in old(db.skills) && old(db.skills[id.value]).providerId == providerId
    ensures r.Err? ==> db.skills == old(db.skills)
    ensures r.Ok? ==> r.value == old(db.skills[id.value]) && db.skills == old(db.skills) - {id.value}
  {
    var validatedId :- ValidateId(id);
    var skill := Lookup(db.skills, validatedId);
    if skill.None? {
      return Err(SkillNotFound);
    }
    if skill.value.providerId != providerId {
      return Err(DeleteForbidden);
    }
    var deleted := SkillRepository.DeleteSkill(db, validatedId);
    r := Ok(deleted.value);
  }

  /** `getSkillsByCategory`: BAD_REQUEST for a missing category, else its skills. */
  method GetSkillsByCategory(db: Store, category: Option<string>) returns (r: Result<set<Skill>, Thrown>)
    ensures !Truthy(category) <==> r == Err(CategoryRequired)
    ensures r.Ok? ==> forall s :: s in r.value <==> s in db.skills.Values && s.category == category.value
  {
    var validatedCategory :- ValidateCategory(category);
    r := Ok(SkillRepository.FindByCategory(db.skills, validatedCategory));
  }

  /**
   * `getSkillsByProviderAndCategory`: the provider id is checked before the
   * category, both before the provider lookup.
   */
  method GetSkillsByProviderAndCategory(db: Store, providerId: Option<string>, category: Option<string>)
    returns (r: Result<set<Skill>, Thrown>)
    ensures !Truthy(providerId) ==> r == Err(ProviderIdRequired)
    ensures Truthy(providerId) && !Truthy(category) ==> r == Err(CategoryRequired)
    ensures (Truthy(providerId) && Truthy(category) && providerId.value !in db.providers) ==> r == Err(ProviderNotFound)
    ensures r.Ok? <==> Truthy(providerId) && Truthy(category) && providerId.value in db.providers
    ensures r.Ok? ==> forall s :: s in r.value <==>
      s in db.skills.Values && s.providerId == providerId.value && s.category == category.value
  {
    var validatedProviderId :- ValidateProviderId(providerId);
    var validatedCategory :- ValidateCategory(category);
    var provider := Lookup(db.providers, validatedProviderId);
    if provider.None? {
      return Err(ProviderNotFound);
    }
    r := Ok(SkillRepository.FindByProviderAndCategory(db.skills, validatedProviderId, validatedCategory));
  }
}
