/** The record shapes of the candidate-search application: locations, skills,
    projects, candidates and the candidate-to-skill link with its level. */
module CandidateModels {
  import opened Wrappers
  import Text

  /** A place with coordinates; both coordinates are always present. */
  datatype Location = Location(city: string, country: string, latitude: real, longitude: real)

  /** A skill of the shared catalogue. */
  datatype Skill = Skill(id: nat, name: string)

  /** A project; `tags` is free comma-separated text. */
  datatype Project = Project(id: nat, title: string, description: string, tags: string, url: string)

  /** The link between a candidate and a skill, with the candidate's level. */
  datatype CandidateSkill = CandidateSkill(id: nat, skill: Skill, level: nat)

  /** A candidate. `skills` is in primary-key order, which is the order a
      query without an explicit ordering returns them in. The location is
      optional. */
  datatype Candidate = Candidate(
    id: nat,
    fullName: string,
    headline: string,
    summary: string,
    yearsExperience: nat,
    location: Option<Location>,
    skills: seq<CandidateSkill>,
    projects: seq<Project>)

  /** The level a new candidate-skill link gets when none is given. */
  const DefaultSkillLevel: nat := 3

  /** The documented upper bound of a skill level (the column itself allows more). */
  const MaxDocumentedLevel: nat := 5

  /** The characters `Location.__str__` strips from both ends. */
  const CommaSpace: set<char> := {',', ' '}

  /** `str(location)`: `"city, country"` with commas and spaces stripped from
      both ends. */
  function LocationDisplay(loc: Location): (r: string)
    ensures Text.Trimmed(r, CommaSpace)
    ensures |r| <= |loc.city| + 2 + |loc.country|
  {
    Text.Strip(loc.city + ", " + loc.country, CommaSpace)
  }

  /** With a city and a country that are themselves free of leading and
      trailing commas and spaces, the display is exactly `"city, country"`. */
  lemma LocationDisplayBoth(loc: Location)
    requires loc.city != [] && loc.country != []
    requires Text.Trimmed(loc.city, CommaSpace) && Text.Trimmed(loc.country, CommaSpace)
    ensures LocationDisplay(loc) == loc.city + ", " + loc.country
  {
    var s := loc.city + ", " + loc.country;
    assert Text.Trimmed(s, CommaSpace);
    assert Text.AllIn([], CommaSpace);
    Text.StripOf([], s, [], CommaSpace);
    assert [] + s + [] == s;
  }

  /** An empty city leaves the country, itself stripped; both empty give "". */
  lemma LocationDisplayNoCity(loc: Location)
    requires loc.city == []
    ensures LocationDisplay(loc) == Text.Strip(loc.country, CommaSpace)
    ensures loc.country == [] ==> LocationDisplay(loc) == []
  {
    var c := loc.country;
    assert loc.city + ", " + c == ", " + c;
    assert Text.AllIn(", ", CommaSpace);
    Text.StripLeftSkips(", ", c, CommaSpace);
  }

  /** Each candidate has at most one link per skill (the `(candidate, skill)`
      uniqueness constraint). */
  ghost predicate OneLinkPerSkill(c: Candidate) {
    forall i, j :: 0 <= i < j < |c.skills| ==> c.skills[i].skill.id != c.skills[j].skill.id
  }

  /** Every level lies in the documented range 0..5. */
  ghost predicate LevelsInRange(c: Candidate) {
    forall cs :: cs in c.skills ==> cs.level <= MaxDocumentedLevel
  }

  /** Skill names are unique in the catalogue, compared case-sensitively:
      "Python" and "python" may both exist. */
  ghost predicate CatalogueNamesUnique(catalogue: seq<Skill>) {
    forall i, j :: 0 <= i < j < |catalogue| ==> catalogue[i].name != catalogue[j].name
  }

  /** Under the uniqueness constraint, a candidate has a single level per skill. */
  lemma SingleLevelPerSkill(c: Candidate, a: CandidateSkill, b: CandidateSkill)
    requires OneLinkPerSkill(c)
    requires a in c.skills && b in c.skills && a.skill.id == b.skill.id
    ensures a == b
  {
    var i :| 0 <= i < |c.skills| && c.skills[i] == a;
    var j :| 0 <= j < |c.skills| && c.skills[j] == b;
    assert i == j;
  }
}
