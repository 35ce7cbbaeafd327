/**
 * The skill repository (server/src/app/skill/skill.repository.ts): skill
 * documents created, updated and deleted by id, and filters over them.
 */
module SkillRepository {
  import opened Wrappers
  import opened Domain
  import opened Persistence

  /** `create`: stores a skill with the given fields under a new id. */
  method Create(db: Store, category: string, experience: int, workNature: string, hourlyRate: real, providerId: Id)
    returns (skill: Skill)
    requires db.Valid()
    modifies db`skills
    ensures db.Valid()
    ensures skill.id !in old(db.skills) && db.skills == old(db.skills)[skill.id := skill]
    ensures skill == Skill(skill.id, category, experience, workNature, hourlyRate, providerId)
  {
    var id := NewId(db.skills.Keys);
    skill := Skill(id, category, experience, workNature, hourlyRate, providerId);
    db.skills := db.skills[id := skill];
  }

  /** `findByProviderId`: the provider's skills. */
  function FindByProviderId(skills: map<Id, Skill>, providerId: Id): (r: set<Skill>)
    ensures forall s :: s in r <==> s in skills.Values && s.providerId == providerId
  {
    set id | id in skills && skills[id].providerId == providerId :: skills[id]
  }

  /** `findByCategory`: the skills of a category. */
  function FindByCategory(skills: map<Id, Skill>, category: string): (r: set<Skill>)
    ensures forall s :: s in r <==> s in skills.Values && s.category == category
  {
    set id | id in skills && skills[id].category == category :: skills[id]
  }

  /** `findByProviderAndCategory`: the provider's skills of a category. */
  function FindByProviderAndCategory(skills: map<Id, Skill>, providerId: Id, category: string): (r: set<Skill>)
    ensures r == FindByProviderId(skills, providerId) * FindByCategory(skills, category)
  {
    set id | id in skills && skills[id].providerId == providerId && skills[id].category == category :: skills[id]
  }

  /** A skill after an update: the present fields of the draft replace the stored ones. */
  function ApplyDraft(skill: Skill, draft: SkillDraft): (r: Skill)
    ensures r.id == skill.id
    ensures draft.category.Some? ==> r.category == draft.category.value
    ensures draft.category.None? ==> r.category == skill.category
    ensures draft.experience.Some? ==> r.experience == draft.experience.value
    ensures draft.experience.None? ==> r.experience == skill.experience
    ensures draft.workNature.Some? ==> r.workNature == draft.workNature.value
    ensures draft.workNature.None? ==> r.workNature == skill.workNature
    ensures draft.hourlyRate.Some? ==> r.hourlyRate == draft.hourlyRate.value
    ensures draft.hourlyRate.None? ==> r.hourlyRate == skill.hourlyRate
    ensures draft.providerId.Some? ==> r.providerId == draft.providerId.value
    ensures draft.providerId.None? ==> r.providerId == skill.providerId
  {
    skill.(
      category := if draft.category.Some? then draft.category.value else skill.category,
      experience := if draft.experience.Some? then draft.experience.value else skill.experience,
      workNature := if draft.workNature.Some? then draft.workNature.value else skill.workNature,
      hourlyRate := if draft.hourlyRate.Some? then draft.hourlyRate.value else skill.hourlyRate,
      providerId := if draft.providerId.Some? then draft.providerId.value else skill.providerId)
  }

  /** An update with no fields leaves the skill as it is. */
  lemma EmptyDraftKeepsSkill(skill: Skill)
    ensures ApplyDraft(skill, SkillDraft(None, None, None, None, None)) == skill
  {
  }

  /** `update` (`findByIdAndUpdate`, new document): null when the id is unknown. */
  method Update(db: Store, id: Id, draft: SkillDraft) returns (r: Option<Skill>)
    requires db.Valid()
    modifies db`skills
    ensures db.Valid()
    ensures id !in old(db.skills) ==> r.None? && db.skills == old(db.skills)
    ensures id in old(db.skills) ==> r == Some(ApplyDraft(old(db.skills[id]), draft)) && db.skills == old(db.skills)[id := r.value]
  {
    if id !in db.skills {
      return None;
    }
    var skill := ApplyDraft(db.skills[id], draft);
    db.skills := db.skills[id := skill];
    r := Some(skill);
  }

  /** `deleteSkill` (`findByIdAndDelete`): the removed skill, or null when the id is unknown. */
  method DeleteSkill(db: Store, id: Id) returns (r: Option<Skill>)
    requires db.Valid()
    modifies db`skills
    ensures db.Valid()
    ensures r == Lookup(old(db.skills), id)
    ensures db.skills == old(db.skills) - {id}
  {
    r := Lookup(db.skills, id);
    db.skills := db.skills - {id};
  }
}
