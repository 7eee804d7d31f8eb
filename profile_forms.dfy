/** The profile forms: the date checks of the education and work-experience
    forms, where the profile form writes names and e-mail, and how the skill
    form finds its catalogue skill. */
module ProfileForms {
  import opened Wrappers
  import Text
  import opened Profiles

  const FormStudyingError := "Cannot have an end date if currently studying."
  const FormWorkingError := "Cannot have an end date if currently working."

  /** `EducationForm.clean`: only a current education with an end date is
      rejected; the data comes back unchanged otherwise. */
  function EducationFormClean(p: Period): (r: Result<Period, string>)
    ensures r.Success? <==> !CurrentWithEnd(p)
    ensures r.Success? ==> r.value == p
    ensures r.Failure? ==> r.error == FormStudyingError
  {
    if p.isCurrent && p.end.Some? then Failure(FormStudyingError) else Success(p)
  }

  /** `WorkExperienceForm.clean`: a current position with an end date is
      rejected first, then an end before the start; equal dates pass and the
      data comes back unchanged. */
  function WorkExperienceFormClean(p: Period): (r: Result<Period, string>)
    ensures r.Success? <==> !CurrentWithEnd(p) && !EndBeforeStart(p)
    ensures r.Success? ==> r.value == p
    ensures CurrentWithEnd(p) ==> r == Failure(FormWorkingError)
    ensures !CurrentWithEnd(p) && EndBeforeStart(p) ==> r == Failure(EndBeforeStartError)
  {
    if p.isCurrent && p.end.Some? then Failure(FormWorkingError)
    else if p.end.Some? && p.start.Some? && Before(p.end.value, p.start.value) then Failure(EndBeforeStartError)
    else Success(p)
  }

  /** The work-experience form accepts exactly what the model accepts, but
      when both rules are broken the form reports the "current" rule and the
      model the date order. */
  lemma WorkFormAgreesWithModel(p: Period)
    ensures WorkExperienceFormClean(p).Success? <==> WorkExperienceClean(p).Success?
    ensures CurrentWithEnd(p) && EndBeforeStart(p) ==>
      WorkExperienceFormClean(p).error == FormWorkingError && WorkExperienceClean(p).error == EndBeforeStartError
  {
  }

  /** The education form's own `clean` never checks the date order: an
      education ending before it starts passes it, and only the record's
      `clean`, which model-form validation runs afterwards, rejects it. */
  lemma EducationFormMissesDateOrder(p: Period)
    requires EndBeforeStart(p) && !p.isCurrent
    ensures EducationFormClean(p) == Success(p)
    ensures EducationClean(p) == Failure(EndBeforeStartError)
  {
  }

  /** Whatever the education form accepts and the model rejects, the model
      rejects for the date order. */
  lemma EducationFormWeakerThanModel(p: Period)
    ensures EducationClean(p).Success? ==> EducationFormClean(p).Success?
    ensures EducationFormClean(p).Success? && EducationClean(p).Failure? ==> EndBeforeStart(p)
  {
  }

  /** The cleaned data of the profile form. */
  datatype ProfileData = ProfileData(
    firstName: string, lastName: string, email: string,
    headline: string, bio: string, location: string, phone: string)

  /** `ProfileForm.save`: the profile's own columns come from the form. With an
      account, the profile is linked to it and, when committing, the names and
      e-mail are written to the account; without one, they are written to the
      profile's own fields. */
  method SaveProfileForm(profile: Profile, user: User?, data: ProfileData, commit: bool)
    modifies profile, user
    ensures profile.headline == data.headline && profile.bio == data.bio
    ensures profile.location == data.location && profile.phone == data.phone
    ensures user != null ==> && profile.user == user
                             && profile.firstName == old(profile.firstName)
                             && profile.lastName == old(profile.lastName)
                             && profile.email == old(profile.email)
    ensures user != null && commit ==>
      user.firstName == data.firstName && user.lastName == data.lastName && user.email == data.email
    ensures user != null && !commit ==> unchanged(user)
    ensures user == null ==> && profile.user == old(profile.user)
                             && profile.firstName == data.firstName
                             && profile.lastName == data.lastName
                             && profile.email == data.email
    ensures (user != null && commit) || (user == null && old(profile.user) == null) ==>
      profile.GetEmail() == data.email && profile.GetFullName() == FullName(data.firstName, data.lastName)
  {
    profile.headline, profile.bio := data.headline, data.bio;
    profile.location, profile.phone := data.location, data.phone;
    if user != null {
      profile.user := user;
      if commit {
        user.firstName := data.firstName;
        user.lastName := data.lastName;
        user.email := data.email;
      }
    } else {
      profile.firstName := data.firstName;
      profile.lastName := data.lastName;
      profile.email := data.email;
    }
  }

  /** `ProfileSkillForm.save`: the skill name is stripped of outer whitespace,
      then looked up or created in the catalogue, whatever happens next. The
      form has only the level as a field, so the (profile, skill) uniqueness
      is not checked before saving. With `commit` the link is saved: an
      instance without a profile fails the non-null profile column, and a
      profile that already has the skill fails the uniqueness constraint;
      in both cases the link table is unchanged. Without `commit` nothing is
      saved (the add-skill view sets the profile and saves the link itself,
      which is `ProfileSkillTable.Insert`). */
  method SaveProfileSkillForm(catalogue: SkillCatalogue, table: ProfileSkillTable, profile: Option<nat>,
                              skillName: string, level: Proficiency, commit: bool)
    returns (skillId: nat, saved: bool)
    requires catalogue.Valid() && table.Valid()
    modifies catalogue, table
    ensures catalogue.Valid() && table.Valid()
    ensures skillId < |catalogue.names| && catalogue.names[skillId] == Text.Trim(skillName)
    ensures catalogue.names == if Text.Trim(skillName) in old(catalogue.names) then old(catalogue.names)
                               else old(catalogue.names) + [Text.Trim(skillName)]
    ensures saved <==> commit && profile.Some? && !HasPair(old(table.links), profile.value, skillId)
    ensures table.links == if saved then old(table.links) + [ProfileSkill(profile.value, skillId, level)]
                           else old(table.links)
  {
    var created;
    skillId, created := catalogue.GetOrCreate(Text.Trim(skillName));
    saved := false;
    if commit && profile.Some? {
      saved := table.Insert(ProfileSkill(profile.value, skillId, level));
    }
  }

  /** Outer whitespace makes no difference: `" Python "` and `"Python"` name
      the same catalogue skill. */
  lemma PaddedSkillName(name: string, pad: string)
    requires Text.AllIn(pad, Text.Whitespace)
    ensures Text.Trim(pad + name + pad) == Text.Trim(name)
  {
    Text.StripPadded(pad, name, pad, Text.Whitespace);
  }
}
