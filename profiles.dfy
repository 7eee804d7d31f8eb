/** Job-seeker profiles: the owner's name and e-mail with their fallback from
    a linked account to the profile's own fields, the skill catalogue and
    proficiency levels, and the date rules of education and work history. */
module Profiles {
  import opened Wrappers
  import Text

  // ---------------------------------------------------------------------------
  // Names

  /** `"first last"` with the outer whitespace stripped: the account's
      `get_full_name`, and an anonymous profile's. */
  function FullName(first: string, last: string): (r: string)
    ensures Text.Trimmed(r, Text.Whitespace)
    ensures |r| <= |first| + 1 + |last|
  {
    Text.Trim(first + " " + last)
  }

  /** Names without outer whitespace are joined by a single space. */
  lemma FullNameOfTrimmedNames(first: string, last: string)
    requires first != [] && last != []
    requires Text.Trimmed(first, Text.Whitespace) && Text.Trimmed(last, Text.Whitespace)
    ensures FullName(first, last) == first + " " + last
  {
    var s := first + " " + last;
    assert s[0] == first[0] && s[|s| - 1] == last[|last| - 1];
    assert [] + s + [] == s;
    assert Text.AllIn([], Text.Whitespace);
    Text.StripOf([], s, [], Text.Whitespace);
  }

  /** With no first name the full name is the stripped last name; with no
      names at all it is empty. */
  lemma FullNameWithoutFirst(last: string)
    ensures FullName("", last) == Text.Trim(last)
    ensures FullName("", "") == ""
  {
    assert "" + " " + last == " " + last;
    assert Text.AllIn(" ", Text.Whitespace);
    Text.StripLeftSkips(" ", last, Text.Whitespace);
  }

  /** A sign-in account. */
  class User {
    var firstName: string
    var lastName: string
    var email: string

    constructor (firstName: string, lastName: string, email: string)
      ensures this.firstName == firstName && this.lastName == lastName && this.email == email
    {
      this.firstName := firstName;
      this.lastName := lastName;
      this.email := email;
    }

    /** The account's `get_full_name`. */
    function GetFullName(): (r: string)
      reads this
      ensures Text.Trimmed(r, Text.Whitespace)
    {
      FullName(firstName, lastName)
    }
  }

  /** `"name - headline"`. */
  function NameDash(name: string, headline: string): (r: string)
    ensures |r| == |name| + 3 + |headline|
    ensures r[..|name|] == name && r[|name|..] == " - " + headline
    ensures r == name + " - " + headline
  {
    name + " - " + headline
  }

  /** A job seeker's profile: linked to an account, or anonymous with its own
      name and e-mail fields. */
  class Profile {
    var user: User?
    var firstName: string
    var lastName: string
    var email: string
    var headline: string
    var bio: string
    var location: string
    var phone: string

    constructor (user: User?, headline: string)
      ensures this.user == user && this.headline == headline
      ensures firstName == [] && lastName == [] && email == [] && bio == [] && location == [] && phone == []
    {
      this.user := user;
      this.headline := headline;
      firstName, lastName, email := [], [], [];
      bio, location, phone := [], [], [];
    }

    /** `get_full_name`: the account's full name when one is linked, the
        profile's own names, stripped, otherwise. */
    function GetFullName(): (r: string)
      reads this, user
      ensures Text.Trimmed(r, Text.Whitespace)
      ensures user != null ==> r == user.GetFullName()
      ensures user == null ==> r == FullName(firstName, lastName)
    {
      if user != null then user.GetFullName() else FullName(firstName, lastName)
    }

    /** `get_email`: the account's e-mail when one is linked, the profile's
        own otherwise. */
    function GetEmail(): (r: string)
      reads this, user
      ensures user != null ==> r == user.email
      ensures user == null ==> r == email
    {
      if user != null then user.email else email
    }

    /** `__str__`: `"name - headline"`. The anonymous form joins the two
        names with a space and does not strip them. */
    function Display(): (r: string)
      reads this, user
      ensures |r| >= 3 + |headline|
      ensures r[|r| - |headline| - 3..] == " - " + headline
      ensures user != null ==> r == user.GetFullName() + " - " + headline
      ensures user == null ==> r == firstName + " " + lastName + " - " + headline
    {
      NameDash(if user != null then user.GetFullName() else firstName + " " + lastName, headline)
    }
  }

  /** The owner's name as `__str__` shows it agrees with `get_full_name` for a
      linked account, while an anonymous profile without names shows two
      spaces where `get_full_name` gives "". */
  lemma DisplayAndFullName(p: Profile)
    ensures p.user != null ==> p.Display() == p.GetFullName() + " - " + p.headline
    ensures p.user == null && p.firstName == [] && p.lastName == [] ==>
      p.Display() == "  - " + p.headline && p.GetFullName() == ""
  {
    if p.user == null && p.firstName == [] && p.lastName == [] {
      FullNameWithoutFirst("");
    }
  }

  /** For every profile, the name part of `__str__`, stripped, is
      `get_full_name`: the two differ only in the outer whitespace of an
      anonymous profile's names. */
  lemma DisplayNameStripped(p: Profile)
    ensures var d := p.Display(); Text.Trim(d[..|d| - |p.headline| - 3]) == p.GetFullName()
  {
    var name := if p.user != null then p.user.GetFullName() else p.firstName + " " + p.lastName;
    NameOfDash(name, p.headline);
    if p.user != null {
      TrimOfFullName(p.user.firstName, p.user.lastName);
    }
  }

  /** The name part of `"name - headline"` is the name. */
  lemma NameOfDash(name: string, headline: string)
    ensures var d := NameDash(name, headline); d[..|d| - |headline| - 3] == name
  {
  }

  /** A full name is already stripped. */
  lemma TrimOfFullName(first: string, last: string)
    ensures Text.Trim(FullName(first, last)) == FullName(first, last)
  {
    Text.StripIdempotent(first + " " + last, Text.Whitespace);
  }

  // ---------------------------------------------------------------------------
  // Skills

  /** The proficiency choices of a profile skill. */
  datatype Proficiency = Beginner | Intermediate | Advanced | Expert

  /** The level a new profile skill gets when none is chosen. */
  const DefaultProficiency: Proficiency := Intermediate

  /** The stored value of a choice. */
  function ProficiencyValue(p: Proficiency): (r: string)
    ensures r != []
  {
    match p
    case Beginner => "beginner"
    case Intermediate => "intermediate"
    case Advanced => "advanced"
    case Expert => "expert"
  }

  /** The choice a stored value stands for, if any. */
  function ParseProficiency(s: string): (r: Option<Proficiency>)
    ensures r.Some? ==> ProficiencyValue(r.value) == s
  {
    if s == "beginner" then Some(Beginner)
    else if s == "intermediate" then Some(Intermediate)
    else if s == "advanced" then Some(Advanced)
    else if s == "expert" then Some(Expert)
    else None
  }

  /** Every choice is read back from its stored value, so the four values
      are distinct. */
  lemma ProficiencyRoundTrip(p: Proficiency)
    ensures ParseProficiency(ProficiencyValue(p)) == Some(p)
  {
  }

  /** The link between a profile and a catalogue skill. */
  datatype ProfileSkill = ProfileSkill(profileId: nat, skillId: nat, level: Proficiency)

  /** At most one link per (profile, skill) pair. */
  ghost predicate OneLinkPerPair(links: seq<ProfileSkill>) {
    forall i, j :: 0 <= i < j < |links| ==>
      links[i].profileId != links[j].profileId || links[i].skillId != links[j].skillId
  }

  /** Some link joins profile `p` to skill `k`. */
  ghost predicate HasPair(links: seq<ProfileSkill>, p: nat, k: nat) {
    exists i :: 0 <= i < |links| && links[i].profileId == p && links[i].skillId == k
  }

  /** The profile-skill link table, under its (profile, skill) uniqueness
      constraint. */
  class ProfileSkillTable {
    var links: seq<ProfileSkill>

    ghost predicate Valid()
      reads this
    {
      OneLinkPerPair(links)
    }

    constructor ()
      ensures links == [] && Valid()
    {
      links := [];
    }

    /** Saving a new link: the row is appended, unless the profile already
        has a link to the skill; the constraint then refuses the insert
        (`IntegrityError`) and nothing changes. */
    method Insert(link: ProfileSkill) returns (saved: bool)
      requires Valid()
      modifies this
      ensures Valid()
      ensures saved <==> !HasPair(old(links), link.profileId, link.skillId)
      ensures links == if saved then old(links) + [link] else old(links)
    {
      saved := true;
      for i := 0 to |links|
        invariant saved <==> forall k :: 0 <= k < i ==> !(links[k].profileId == link.profileId && links[k].skillId == link.skillId)
      {
        if links[i].profileId == link.profileId && links[i].skillId == link.skillId {
          saved := false;
        }
      }
      if saved {
        links := links + [link];
      }
    }
  }

  /** Under the uniqueness constraint a profile's link to a skill is a single
      row, so the profile has one level per skill. */
  lemma SingleProficiency(links: seq<ProfileSkill>, a: nat, b: nat)
    requires OneLinkPerPair(links)
    requires a < |links| && b < |links|
    requires links[a].profileId == links[b].profileId && links[a].skillId == links[b].skillId
    ensures a == b
  {
  }

  /** `str(profile_skill)` as written: the profile's account full name, the
      skill and the level. An anonymous profile has no account, so the
      lookup of its full name raises (`None` here). */
  function ProfileSkillDisplayAsWritten(p: Profile, skillName: string, level: Proficiency): (r: Option<string>)
    reads p, p.user
    ensures r.Some? <==> p.user != null
  {
    if p.user == null then None
    else Some(p.user.GetFullName() + " - " + skillName + " (" + ProficiencyValue(level) + ")")
  }

  /** An anonymous profile's skill cannot be shown at all. */
  lemma AnonymousSkillDisplayRaises(p: Profile, skillName: string, level: Proficiency)
    requires p.user == null
    ensures ProfileSkillDisplayAsWritten(p, skillName, level).None?
  {
  }

  /** `str(profile_skill)` with the owner's name taken through the profile, as
      the profile's own `__str__` does: defined for every profile. */
  function ProfileSkillDisplay(p: Profile, skillName: string, level: Proficiency): (r: string)
    reads p, p.user
    ensures ProfileSkillDisplayAsWritten(p, skillName, level).Some? ==>
      ProfileSkillDisplayAsWritten(p, skillName, level) == Some(r)
    ensures |r| > |skillName|
  {
    p.GetFullName() + " - " + skillName + " (" + ProficiencyValue(level) + ")"
  }

  /** The skill catalogue; names are unique, compared exactly. */
  class SkillCatalogue {
    var names: seq<string>

    ghost predicate Valid()
      reads this
    {
      forall i, j :: 0 <= i < j < |names| ==> names[i] != names[j]
    }

    constructor ()
      ensures names == [] && Valid()
    {
      names := [];
    }

    /** `Skill.objects.get_or_create(name=name)`: the key of the skill with
        this exact name, created at the end when there is none. */
    method GetOrCreate(name: string) returns (id: nat, created: bool)
      requires Valid()
      modifies this
      ensures Valid()
      ensures id < |names| && names[id] == name
      ensures created <==> name !in old(names)
      ensures names == if created then old(names) + [name] else old(names)
    {
      var i := 0;
      while i < |names| && names[i] != name
        invariant i <= |names|
        invariant name !in names[..i]
      {
        i := i + 1;
      }
      if i < |names| {
        id, created := i, false;
      } else {
        assert names[..i] == names;
        id, created := |names|, true;
        names := names + [name];
      }
    }
  }

  /** In a valid catalogue a name has one key. */
  lemma SameNameSameSkill(c: SkillCatalogue, i: nat, j: nat)
    requires c.Valid() && i < |c.names| && j < |c.names|
    requires c.names[i] == c.names[j]
    ensures i == j
  {
  }

  // ---------------------------------------------------------------------------
  // Education and work history

  /** A calendar date. */
  datatype Date = Date(year: int, month: nat, day: nat)

  /** Calendar order. */
  predicate Before(a: Date, b: Date) {
    a.year < b.year || (a.year == b.year && (a.month < b.month || (a.month == b.month && a.day < b.day)))
  }

  /** The dates and the "current" flag of an education or a position. */
  datatype Period = Period(start: Option<Date>, end: Option<Date>, isCurrent: bool)

  /** Both dates are given and the end comes first. */
  predicate EndBeforeStart(p: Period) {
    p.end.Some? && p.start.Some? && Before(p.end.value, p.start.value)
  }

  /** The period is marked current and yet has an end date. */
  predicate CurrentWithEnd(p: Period) {
    p.isCurrent && p.end.Some?
  }

  const EndBeforeStartError := "End date cannot be before start date."
  const StudyingError := "Cannot have end date if currently studying."
  const WorkingError := "Cannot have end date if currently working."

  /** The two checks of a record's `clean`, date order first. */
  function CleanPeriod(p: Period, currentError: string): Result<(), string> {
    if EndBeforeStart(p) then Failure(EndBeforeStartError)
    else if CurrentWithEnd(p) then Failure(currentError)
    else Success(())
  }

  /** `Education.clean`: rejects an end before the start and, after that,
      a current education with an end date; accepts everything else. */
  function EducationClean(p: Period): (r: Result<(), string>)
    ensures r.Success? <==> !EndBeforeStart(p) && !CurrentWithEnd(p)
    ensures EndBeforeStart(p) ==> r == Failure(EndBeforeStartError)
    ensures !EndBeforeStart(p) && CurrentWithEnd(p) ==> r == Failure(StudyingError)
  {
    CleanPeriod(p, StudyingError)
  }

  /** `WorkExperience.clean`: the same two rejections in the same order. */
  function WorkExperienceClean(p: Period): (r: Result<(), string>)
    ensures r.Success? <==> !EndBeforeStart(p) && !CurrentWithEnd(p)
    ensures EndBeforeStart(p) ==> r == Failure(EndBeforeStartError)
    ensures !EndBeforeStart(p) && CurrentWithEnd(p) ==> r == Failure(WorkingError)
  {
    CleanPeriod(p, WorkingError)
  }

  /** A period that ends on the day it starts, or has no end, passes both
      checks unless it ends while current. */
  lemma EqualDatesAccepted(d: Date, current: bool)
    ensures EducationClean(Period(Some(d), Some(d), false)).Success?
    ensures WorkExperienceClean(Period(Some(d), Some(d), false)).Success?
    ensures EducationClean(Period(Some(d), None, current)).Success?
    ensures WorkExperienceClean(Period(Some(d), None, current)).Success?
  {
  }
}
