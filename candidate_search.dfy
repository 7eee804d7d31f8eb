/** Candidate search: the three-stage filter (skills, project terms, radius)
    and the weighted relevance score. The great-circle distance is a
    parameter of the model. */
module CandidateSearch {
  import opened Wrappers
  import opened CandidateModels
  import Text
  import Seqs

  /** What a search asks for. Coordinates and radius are optional. */
  datatype SearchParams = SearchParams(
    skills: seq<string>,
    requireAllSkills: bool,
    minSkillLevel: int,
    projects: seq<string>,
    latitude: Option<real>,
    longitude: Option<real>,
    radiusKm: Option<real>)

  /** Distance in km from (lat1, lon1) to (lat2, lon2). */
  type Distance = (real, real, real, real) -> real

  ghost predicate NonNegative(dist: Distance) {
    forall lat1, lon1, lat2, lon2 :: dist(lat1, lon1, lat2, lon2) >= 0.0
  }

  /** Two records with the same primary key are the same record. */
  ghost predicate IdsDistinct(s: seq<Candidate>) {
    forall a, b :: a in s && b in s && a.id == b.id ==> a == b
  }

  // ---------------------------------------------------------------------------
  // Filter

  /** One skill link matches a requested name at the minimum level. */
  predicate SkillMatches(cs: CandidateSkill, name: string, minLevel: int) {
    Text.IEquals(cs.skill.name, name) && cs.level >= minLevel
  }

  /** Some link of `c` matches `name` at the minimum level. */
  predicate HasSkill(c: Candidate, name: string, minLevel: int) {
    exists k | 0 <= k < |c.skills| :: SkillMatches(c.skills[k], name, minLevel)
  }

  predicate MatchesAnySkill(c: Candidate, p: SearchParams) {
    exists i | 0 <= i < |p.skills| :: HasSkill(c, p.skills[i], p.minSkillLevel)
  }

  /** The intended all-skills condition: every requested skill is matched,
      each by a link of its own. */
  predicate MatchesAllSkills(c: Candidate, p: SearchParams) {
    forall i | 0 <= i < |p.skills| :: HasSkill(c, p.skills[i], p.minSkillLevel)
  }

  /** The all-skills condition as the query is written: all the per-skill
      conditions sit in one `filter()` call, so they constrain one and the
      same related skill link. */
  predicate MatchesAllSkillsAsWritten(c: Candidate, p: SearchParams) {
    exists k | 0 <= k < |c.skills| ::
      forall i | 0 <= i < |p.skills| :: SkillMatches(c.skills[k], p.skills[i], p.minSkillLevel)
  }

  predicate ProjectMatches(pr: Project, term: string) {
    Text.IContains(pr.title, term) || Text.IContains(pr.tags, term)
  }

  predicate MatchesAnyProject(c: Candidate, p: SearchParams) {
    exists i, k | 0 <= i < |p.projects| && 0 <= k < |c.projects| ::
      ProjectMatches(c.projects[k], p.projects[i])
  }

  /** The radius stage runs only with both coordinates and a non-zero radius
      (a zero radius is falsy and switches it off). */
  predicate RadiusActive(p: SearchParams) {
    p.latitude.Some? && p.longitude.Some? && p.radiusKm.Some? && p.radiusKm.value != 0.0
  }

  /** The distance from the search origin to the candidate's location. */
  function DistanceTo(c: Candidate, p: SearchParams, dist: Distance): real
    requires p.latitude.Some? && p.longitude.Some? && c.location.Some?
  {
    dist(p.latitude.value, p.longitude.value, c.location.value.latitude, c.location.value.longitude)
  }

  predicate WithinRadius(c: Candidate, p: SearchParams, dist: Distance) {
    RadiusActive(p) && c.location.Some? && DistanceTo(c, p, dist) <= p.radiusKm.value
  }

  function SkillTest(p: SearchParams): Candidate -> bool {
    c => if p.requireAllSkills then MatchesAllSkills(c, p) else MatchesAnySkill(c, p)
  }

  function ProjectTest(p: SearchParams): Candidate -> bool {
    c => MatchesAnyProject(c, p)
  }

  function RadiusTest(p: SearchParams, dist: Distance): Candidate -> bool {
    c => WithinRadius(c, p, dist)
  }

  function SkillStage(pool: seq<Candidate>, p: SearchParams): seq<Candidate> {
    if p.skills == [] then pool else Seqs.Filter(pool, SkillTest(p))
  }

  function ProjectStage(pool: seq<Candidate>, p: SearchParams): seq<Candidate> {
    if p.projects == [] then pool else Seqs.Filter(pool, ProjectTest(p))
  }

  function RadiusStage(pool: seq<Candidate>, p: SearchParams, dist: Distance): seq<Candidate> {
    if RadiusActive(p) then Seqs.Filter(pool, RadiusTest(p, dist)) else pool
  }

  /** The three stages, applied in order. */
  function Filtered(pool: seq<Candidate>, p: SearchParams, dist: Distance): seq<Candidate> {
    RadiusStage(ProjectStage(SkillStage(pool, p), p), p, dist)
  }

  /** The primary keys of `s`, in order. */
  function Ids(s: seq<Candidate>): (r: seq<nat>)
    ensures forall c :: c in s ==> c.id in r
    ensures forall x :: x in r ==> exists c :: c in s && c.id == x
  {
    if s == [] then [] else [s[0].id] + Ids(s[1..])
  }

  function IdIn(ids: seq<nat>): Candidate -> bool {
    (c: Candidate) => c.id in ids
  }

  /** `filter_candidates`: narrows the pool stage by stage; the radius stage
      collects the keys of the candidates in range and keeps those. */
  method FilterCandidates(pool: seq<Candidate>, p: SearchParams, dist: Distance) returns (qs: seq<Candidate>)
    requires IdsDistinct(pool)
    ensures qs == Filtered(pool, p, dist)
  {
    qs := pool;
    if p.skills != [] {
      qs := Seqs.Filter(qs, SkillTest(p));
    }
    if p.projects != [] {
      qs := Seqs.Filter(qs, ProjectTest(p));
    }
    if p.latitude.Some? && p.longitude.Some? && p.radiusKm.Some? && p.radiusKm.value != 0.0 {
      var idsInRadius := KeysInRadius(qs, p, dist);
      FilteredIsSubset(pool, p);
      KeepByKey(qs, RadiusTest(p, dist));
      qs := Seqs.Filter(qs, IdIn(idsInRadius));
    }
  }

  /** The radius loop of `filter_candidates`: the keys of the candidates that
      have a location within the radius, in order. */
  method KeysInRadius(qs: seq<Candidate>, p: SearchParams, dist: Distance) returns (idsInRadius: seq<nat>)
    requires RadiusActive(p)
    ensures idsInRadius == Ids(Seqs.Filter(qs, RadiusTest(p, dist)))
  {
    idsInRadius := [];
    var i := 0;
    while i < |qs|
      invariant 0 <= i <= |qs|
      invariant idsInRadius == Ids(Seqs.Filter(qs[..i], RadiusTest(p, dist)))
    {
      var c := qs[i];
      var inRange := false;
      if c.location.Some? {
        var d := dist(p.latitude.value, p.longitude.value, c.location.value.latitude, c.location.value.longitude);
        inRange := d <= p.radiusKm.value;
      }
      assert inRange == RadiusTest(p, dist)(c);
      IdsOfFilterStep(qs, i, RadiusTest(p, dist));
      if inRange {
        idsInRadius := idsInRadius + [c.id];
      }
      i := i + 1;
    }
    assert qs[..|qs|] == qs;
  }

  lemma IdsOfFilterStep(qs: seq<Candidate>, i: nat, f: Candidate -> bool)
    requires i < |qs|
    ensures Ids(Seqs.Filter(qs[..i + 1], f)) == Ids(Seqs.Filter(qs[..i], f)) + (if f(qs[i]) then [qs[i].id] else [])
  {
    assert qs[..i + 1] == qs[..i] + [qs[i]];
    Seqs.FilterAppend(qs[..i], [qs[i]], f);
    IdsAppend(Seqs.Filter(qs[..i], f), Seqs.Filter([qs[i]], f));
  }

  lemma {:induction false} IdsAppend(a: seq<Candidate>, b: seq<Candidate>)
    ensures Ids(a + b) == Ids(a) + Ids(b)
    decreases |a|
  {
    if a == [] {
      assert a + b == b;
    } else {
      assert (a + b)[0] == a[0];
      assert (a + b)[1..] == a[1..] + b;
      IdsAppend(a[1..], b);
      assert Ids(a + b) == [a[0].id] + Ids(a[1..] + b);
    }
  }

  /** The first two stages keep distinct keys distinct. */
  lemma FilteredIsSubset(pool: seq<Candidate>, p: SearchParams)
    requires IdsDistinct(pool)
    ensures IdsDistinct(ProjectStage(SkillStage(pool, p), p))
  {
  }

  /** With distinct keys, keeping the candidates whose key was collected by a
      test is keeping the candidates that pass it. */
  lemma KeepByKey(qs: seq<Candidate>, f: Candidate -> bool)
    requires IdsDistinct(qs)
    ensures Seqs.Filter(qs, IdIn(Ids(Seqs.Filter(qs, f)))) == Seqs.Filter(qs, f)
  {
    var ids := Ids(Seqs.Filter(qs, f));
    forall c | c in qs
      ensures IdIn(ids)(c) == f(c)
    {
      if c.id in ids {
        var c' :| c' in Seqs.Filter(qs, f) && c'.id == c.id;
        assert c' == c;
      }
    }
    Seqs.FilterExt(qs, IdIn(ids), f);
  }

  /** A candidate survives the filter iff it is in the pool and passes every
      active stage: the skill stage (all or any requested skill, by
      case-insensitive name at the minimum level), the project stage (some
      term in some project's title or tags) and the radius stage. */
  lemma FilterMembership(pool: seq<Candidate>, p: SearchParams, dist: Distance, c: Candidate)
    ensures c in Filtered(pool, p, dist) <==>
      && c in pool
      && (p.skills == [] || (if p.requireAllSkills then MatchesAllSkills(c, p) else MatchesAnySkill(c, p)))
      && (p.projects == [] || MatchesAnyProject(c, p))
      && (!RadiusActive(p) || (c.location.Some? && DistanceTo(c, p, dist) <= p.radiusKm.value))
  {
  }

  /** Every stage only narrows: the result is drawn from the pool, no bigger. */
  lemma FilterNarrows(pool: seq<Candidate>, p: SearchParams, dist: Distance)
    ensures |Filtered(pool, p, dist)| <= |pool|
    ensures multiset(Filtered(pool, p, dist)) <= multiset(pool)
  {
  }

  /** With nothing to filter on, the whole pool comes back, in order. */
  lemma FilterUnconstrained(pool: seq<Candidate>, p: SearchParams, dist: Distance)
    requires p.skills == [] && p.projects == [] && !RadiusActive(p)
    ensures Filtered(pool, p, dist) == pool
  {
  }

  /** A negative radius is truthy, so the radius stage runs, and it keeps no one. */
  lemma NegativeRadiusKeepsNoOne(pool: seq<Candidate>, p: SearchParams, dist: Distance)
    requires NonNegative(dist)
    requires p.latitude.Some? && p.longitude.Some? && p.radiusKm.Some? && p.radiusKm.value < 0.0
    ensures Filtered(pool, p, dist) == []
  {
    var before := ProjectStage(SkillStage(pool, p), p);
    forall c | c in before
      ensures !RadiusTest(p, dist)(c)
    {
      if c.location.Some? {
        DistanceNonNegative(c, p, dist);
      }
    }
    Seqs.FilterDropsAll(before, RadiusTest(p, dist));
  }

  /** As written, the all-skills query asks one skill link to carry every
      requested name; two names that differ ignoring case can never both be
      matched, so no candidate passes. */
  lemma AllSkillsAsWrittenRejects(c: Candidate, p: SearchParams)
    requires |p.skills| >= 2 && !Text.IEquals(p.skills[0], p.skills[1])
    ensures !MatchesAllSkillsAsWritten(c, p)
  {
  }

  /** The input that shows the difference: a candidate with Python at 4 and
      Django at 3, searched for both at level 3, passes the intended condition
      and fails the query as written. */
  lemma AllSkillsCounterexample()
    ensures var c := Candidate(1, "Alex Rivera", "", "", 0, None,
                               [CandidateSkill(1, Skill(1, "Python"), 4), CandidateSkill(2, Skill(2, "Django"), 3)], []);
            var p := SearchParams(["Python", "Django"], true, 3, [], None, None, None);
            MatchesAllSkills(c, p) && !MatchesAllSkillsAsWritten(c, p)
  {
    var c := Candidate(1, "Alex Rivera", "", "", 0, None,
                       [CandidateSkill(1, Skill(1, "Python"), 4), CandidateSkill(2, Skill(2, "Django"), 3)], []);
    var p := SearchParams(["Python", "Django"], true, 3, [], None, None, None);
    assert SkillMatches(c.skills[0], "Python", 3);
    assert SkillMatches(c.skills[1], "Django", 3);
    assert HasSkill(c, p.skills[0], 3);
    assert HasSkill(c, p.skills[1], 3);
    assert Text.Lower("Python")[0] != Text.Lower("Django")[0];
    AllSkillsAsWrittenRejects(c, p);
  }

  // ---------------------------------------------------------------------------
  // Score

  /** The scoring weights; they sum to 1. */
  const SkillWeight: real := 0.6
  const DistanceWeight: real := 0.3
  const ProjectWeight: real := 0.1

  function RealMax(a: real, b: real): real {
    if a >= b then a else b
  }

  /** No link before index `k` has a skill named `name`, ignoring case. */
  predicate NoneNamedBefore(skills: seq<CandidateSkill>, name: string, k: nat)
    requires k <= |skills|
  {
    forall j :: 0 <= j < k ==> !Text.IEquals(skills[j].skill.name, name)
  }

  /** The first link (in key order) whose skill name equals `name` ignoring
      case: what `.first()` returns, since skill names are unique only with
      their case, so a candidate may hold links to both "Python" and
      "python". */
  function FirstNamed(skills: seq<CandidateSkill>, name: string): (r: Option<CandidateSkill>)
    ensures r.Some? ==> r.value in skills && Text.IEquals(r.value.skill.name, name)
    ensures r.None? ==> forall cs :: cs in skills ==> !Text.IEquals(cs.skill.name, name)
  {
    if skills == [] then None
    else if Text.IEquals(skills[0].skill.name, name) then Some(skills[0])
    else FirstNamed(skills[1..], name)
  }

  /** The link found is the first with that name: it sits at some index `k`
      and no link before `k` has the name. */
  lemma {:induction false} FirstNamedIsFirst(skills: seq<CandidateSkill>, name: string)
    ensures FirstNamed(skills, name).Some? ==>
      exists k :: 0 <= k < |skills| && skills[k] == FirstNamed(skills, name).value && NoneNamedBefore(skills, name, k)
    decreases |skills|
  {
    if skills == [] {
    } else if Text.IEquals(skills[0].skill.name, name) {
      assert NoneNamedBefore(skills, name, 0);
    } else {
      var rest := skills[1..];
      FirstNamedIsFirst(rest, name);
      if FirstNamed(rest, name).Some? {
        var k :| 0 <= k < |rest| && rest[k] == FirstNamed(rest, name).value && NoneNamedBefore(rest, name, k);
        assert skills[k + 1] == rest[k];
        assert NoneNamedBefore(skills, name, k + 1) by {
          forall j | 0 <= j < k + 1 ensures !Text.IEquals(skills[j].skill.name, name) {
            if j > 0 {
              assert skills[j] == rest[j - 1];
            }
          }
        }
      }
    }
  }

  /** What one requested skill contributes: level / 5 of the first link with
      that name, if that link reaches the minimum level. */
  function SkillCredit(c: Candidate, name: string, minLevel: int): real {
    match FirstNamed(c.skills, name)
    case Some(cs) => if cs.level >= minLevel then cs.level as real / 5.0 else 0.0
    case None => 0.0
  }

  function SkillCreditSum(c: Candidate, names: seq<string>, minLevel: int): real {
    if names == [] then 0.0
    else SkillCreditSum(c, names[..|names| - 1], minLevel) + SkillCredit(c, names[|names| - 1], minLevel)
  }

  function SkillScore(c: Candidate, p: SearchParams): real {
    if p.skills == [] then 0.0
    else SkillCreditSum(c, p.skills, p.minSkillLevel) / (if |p.skills| >= 1 then |p.skills| else 1) as real
  }

  function Titles(ps: seq<Project>): seq<string> {
    seq(|ps|, i requires 0 <= i < |ps| => ps[i].title)
  }

  function Tags(ps: seq<Project>): seq<string> {
    seq(|ps|, i requires 0 <= i < |ps| => ps[i].tags)
  }

  /** The lower-cased titles joined by spaces, a space, and the lower-cased
      tags joined by spaces. */
  function Haystack(c: Candidate): string {
    Text.Lower(Text.Join(Titles(c.projects), " ")) + " " + Text.Lower(Text.Join(Tags(c.projects), " "))
  }

  /** How many of `terms`, lower-cased, occur in `haystack`. */
  function HitCount(haystack: string, terms: seq<string>): (r: nat)
    ensures r <= |terms|
  {
    if terms == [] then 0
    else HitCount(haystack, terms[..|terms| - 1]) + (if Text.Contains(haystack, Text.Lower(terms[|terms| - 1])) then 1 else 0)
  }

  function ProjectScore(c: Candidate, p: SearchParams): real {
    if p.projects == [] then 0.0 else HitCount(Haystack(c), p.projects) as real / |p.projects| as real
  }

  function DistanceScore(c: Candidate, p: SearchParams, dist: Distance): real {
    if RadiusActive(p) && c.location.Some? then RealMax(0.0, 1.0 - DistanceTo(c, p, dist) / p.radiusKm.value)
    else 0.0
  }

  function Score(c: Candidate, p: SearchParams, dist: Distance): real {
    SkillWeight * SkillScore(c, p) + DistanceWeight * DistanceScore(c, p, dist) + ProjectWeight * ProjectScore(c, p)
  }

  /** `score_candidate`: accumulates the matched skill levels and the project
      hits in two loops, then weighs the three components. */
  method ScoreCandidate(c: Candidate, p: SearchParams, dist: Distance) returns (score: real)
    ensures score == Score(c, p, dist)
  {
    var skillScore := SkillScoreLoop(c, p);
    var projectScore := ProjectScoreLoop(c, p);

    var distanceScore := 0.0;
    if p.latitude.Some? && p.longitude.Some? && p.radiusKm.Some? && p.radiusKm.value != 0.0 && c.location.Some? {
      var d := dist(p.latitude.value, p.longitude.value, c.location.value.latitude, c.location.value.longitude);
      distanceScore := RealMax(0.0, 1.0 - d / p.radiusKm.value);
    }

    score := 0.6 * skillScore + 0.3 * distanceScore + 0.1 * projectScore;
  }

  /** The skill part of the score: the credit of each requested skill,
      summed in a loop, over the number of requested skills. */
  method SkillScoreLoop(c: Candidate, p: SearchParams) returns (skillScore: real)
    ensures skillScore == SkillScore(c, p)
  {
    skillScore := 0.0;
    if p.skills != [] {
      var matched := 0.0;
      for i := 0 to |p.skills|
        invariant matched == SkillCreditSum(c, p.skills[..i], p.minSkillLevel)
      {
        assert p.skills[..i + 1][..i] == p.skills[..i];
        var cs := FirstNamed(c.skills, p.skills[i]);
        if cs.Some? && cs.value.level >= p.minSkillLevel {
          matched := matched + cs.value.level as real / 5.0;
        }
      }
      assert p.skills[..|p.skills|] == p.skills;
      skillScore := matched / (if |p.skills| >= 1 then |p.skills| else 1) as real;
    }
  }

  /** The project part of the score: the requested terms found in the
      lower-cased titles and tags, counted in a loop, over the number of
      terms. */
  method ProjectScoreLoop(c: Candidate, p: SearchParams) returns (projectScore: real)
    ensures projectScore == ProjectScore(c, p)
  {
    projectScore := 0.0;
    if p.projects != [] {
      var total := |p.projects|;
      var hits := 0;
      var titles := Text.Lower(Text.Join(Titles(c.projects), " "));
      var tags := Text.Lower(Text.Join(Tags(c.projects), " "));
      var haystack := titles + " " + tags;
      for i := 0 to total
        invariant hits == HitCount(haystack, p.projects[..i])
      {
        assert p.projects[..i + 1][..i] == p.projects[..i];
        if Text.Contains(haystack, Text.Lower(p.projects[i])) {
          hits := hits + 1;
        }
      }
      assert p.projects[..total] == p.projects;
      projectScore := hits as real / total as real;
    }
  }

  lemma {:induction false} SkillCreditSumBounds(c: Candidate, names: seq<string>, minLevel: int)
    requires LevelsInRange(c)
    ensures 0.0 <= SkillCreditSum(c, names, minLevel) <= |names| as real
    decreases |names|
  {
    if names != [] {
      SkillCreditSumBounds(c, names[..|names| - 1], minLevel);
      var last := names[|names| - 1];
      match FirstNamed(c.skills, last)
      case Some(cs) =>
        assert cs.level <= 5;
      case None =>
    }
  }

  lemma DistanceNonNegative(c: Candidate, p: SearchParams, dist: Distance)
    requires NonNegative(dist)
    requires p.latitude.Some? && p.longitude.Some? && c.location.Some?
    ensures DistanceTo(c, p, dist) >= 0.0
  {
    var lat1, lon1 := p.latitude.value, p.longitude.value;
    var lat2, lon2 := c.location.value.latitude, c.location.value.longitude;
    assert DistanceTo(c, p, dist) == dist(lat1, lon1, lat2, lon2);
    assert dist(lat1, lon1, lat2, lon2) >= 0.0;
  }

  /** With levels in 0..5, a non-negative distance and a radius that is not
      negative, the score lies in [0, 1]. */
  lemma ScoreInUnitInterval(c: Candidate, p: SearchParams, dist: Distance)
    requires LevelsInRange(c) && NonNegative(dist)
    requires p.radiusKm.Some? ==> p.radiusKm.value >= 0.0
    ensures 0.0 <= Score(c, p, dist) <= 1.0
  {
    SkillScoreBounds(c, p);
    ProjectScoreBounds(c, p);
    DistanceScoreBounds(c, p, dist);
  }

  lemma RatioAtMostOne(x: real, n: real)
    requires 0.0 <= x <= n && n > 0.0
    ensures 0.0 <= x / n <= 1.0
  {
  }

  lemma SkillScoreBounds(c: Candidate, p: SearchParams)
    requires LevelsInRange(c)
    ensures 0.0 <= SkillScore(c, p) <= 1.0
  {
    if p.skills != [] {
      SkillCreditSumBounds(c, p.skills, p.minSkillLevel);
      RatioAtMostOne(SkillCreditSum(c, p.skills, p.minSkillLevel), |p.skills| as real);
    }
  }

  lemma ProjectScoreBounds(c: Candidate, p: SearchParams)
    ensures 0.0 <= ProjectScore(c, p) <= 1.0
  {
    if p.projects != [] {
      RatioAtMostOne(HitCount(Haystack(c), p.projects) as real, |p.projects| as real);
    }
  }

  lemma DistanceScoreBounds(c: Candidate, p: SearchParams, dist: Distance)
    requires NonNegative(dist)
    requires p.radiusKm.Some? ==> p.radiusKm.value >= 0.0
    ensures 0.0 <= DistanceScore(c, p, dist) <= 1.0
  {
    if RadiusActive(p) && c.location.Some? {
      DistanceNonNegative(c, p, dist);
      var d := DistanceTo(c, p, dist);
      var r := p.radiusKm.value;
      assert d / r >= 0.0;
    }
  }

  /** With no skills, no project terms and no active radius, every score is 0. */
  lemma ScoreUnconstrained(c: Candidate, p: SearchParams, dist: Distance)
    requires p.skills == [] && p.projects == [] && !RadiusActive(p)
    ensures Score(c, p, dist) == 0.0
  {
  }

  lemma {:induction false} SkillCreditSumStrictlyGreater(a: Candidate, b: Candidate, names: seq<string>, minLevel: int)
    requires forall i :: 0 <= i < |names| ==> SkillCredit(a, names[i], minLevel) >= SkillCredit(b, names[i], minLevel)
    requires exists i :: 0 <= i < |names| && SkillCredit(a, names[i], minLevel) > SkillCredit(b, names[i], minLevel)
    ensures SkillCreditSum(a, names, minLevel) > SkillCreditSum(b, names, minLevel)
    decreases |names|
  {
    var n := |names| - 1;
    var init := names[..n];
    forall i | 0 <= i < |init| ensures SkillCredit(a, init[i], minLevel) >= SkillCredit(b, init[i], minLevel) {
      assert init[i] == names[i];
    }
    if SkillCredit(a, names[n], minLevel) > SkillCredit(b, names[n], minLevel) {
      SkillCreditSumAtLeast(a, b, init, minLevel);
    } else {
      var k :| 0 <= k < |names| && SkillCredit(a, names[k], minLevel) > SkillCredit(b, names[k], minLevel);
      assert init[k] == names[k];
      SkillCreditSumStrictlyGreater(a, b, init, minLevel);
    }
  }

  lemma {:induction false} SkillCreditSumAtLeast(a: Candidate, b: Candidate, names: seq<string>, minLevel: int)
    requires forall i :: 0 <= i < |names| ==> SkillCredit(a, names[i], minLevel) >= SkillCredit(b, names[i], minLevel)
    ensures SkillCreditSum(a, names, minLevel) >= SkillCreditSum(b, names, minLevel)
    decreases |names|
  {
    if names != [] {
      var init := names[..|names| - 1];
      assert forall i :: 0 <= i < |init| ==> init[i] == names[i];
      SkillCreditSumAtLeast(a, b, init, minLevel);
    }
  }

  /** Of two candidates alike in distance and projects, the one whose every
      requested skill earns at least as much credit, and some skill strictly
      more, scores strictly higher. */
  lemma ScorePrefersStrongerSkills(a: Candidate, b: Candidate, p: SearchParams, dist: Distance)
    requires DistanceScore(a, p, dist) == DistanceScore(b, p, dist)
    requires ProjectScore(a, p) == ProjectScore(b, p)
    requires forall i :: 0 <= i < |p.skills| ==> SkillCredit(a, p.skills[i], p.minSkillLevel) >= SkillCredit(b, p.skills[i], p.minSkillLevel)
    requires exists i :: 0 <= i < |p.skills| && SkillCredit(a, p.skills[i], p.minSkillLevel) > SkillCredit(b, p.skills[i], p.minSkillLevel)
    ensures Score(a, p, dist) > Score(b, p, dist)
  {
    SkillCreditSumStrictlyGreater(a, b, p.skills, p.minSkillLevel);
    DivideKeepsOrder(SkillCreditSum(a, p.skills, p.minSkillLevel), SkillCreditSum(b, p.skills, p.minSkillLevel), |p.skills| as real);
    assert SkillScore(a, p) > SkillScore(b, p);
  }

  lemma DivideKeepsOrder(x: real, y: real, n: real)
    requires n > 0.0 && x > y
    ensures x / n > y / n
  {
    assert x / n - y / n == (x - y) / n;
  }

  /** A term that the project stage matches in some title or tag list is also
      counted as a hit by the score. */
  lemma ProjectMatchIsHit(c: Candidate, k: nat, term: string)
    requires k < |c.projects| && ProjectMatches(c.projects[k], term)
    ensures Text.Contains(Haystack(c), Text.Lower(term))
  {
    var titles := Text.Join(Titles(c.projects), " ");
    var tags := Text.Join(Tags(c.projects), " ");
    var hay := Haystack(c);
    Text.ContainsMiddle([], Text.Lower(titles), " " + Text.Lower(tags));
    assert [] + Text.Lower(titles) + (" " + Text.Lower(tags)) == hay;
    Text.ContainsMiddle(Text.Lower(titles) + " ", Text.Lower(tags), []);
    assert Text.Lower(titles) + " " + Text.Lower(tags) + [] == hay;
    if Text.IContains(c.projects[k].title, term) {
      Text.JoinContainsPart(Titles(c.projects), " ", k);
      Text.ContainsLower(titles, c.projects[k].title);
      Text.ContainsTransitive(Text.Lower(titles), Text.Lower(c.projects[k].title), Text.Lower(term));
      Text.ContainsTransitive(hay, Text.Lower(titles), Text.Lower(term));
    } else {
      Text.JoinContainsPart(Tags(c.projects), " ", k);
      Text.ContainsLower(tags, c.projects[k].tags);
      Text.ContainsTransitive(Text.Lower(tags), Text.Lower(c.projects[k].tags), Text.Lower(term));
      Text.ContainsTransitive(hay, Text.Lower(tags), Text.Lower(term));
    }
  }

  lemma {:induction false} HitCountPositive(haystack: string, terms: seq<string>, i: nat)
    requires i < |terms| && Text.Contains(haystack, Text.Lower(terms[i]))
    ensures HitCount(haystack, terms) > 0
    decreases |terms|
  {
    if i < |terms| - 1 {
      HitCountPositive(haystack, terms[..|terms| - 1], i);
    }
  }

  /** Every candidate the project stage keeps gets a positive project score. */
  lemma ProjectStageImpliesProjectScore(c: Candidate, p: SearchParams)
    requires p.projects != [] && MatchesAnyProject(c, p)
    ensures ProjectScore(c, p) > 0.0
  {
    var i, k :| 0 <= i < |p.projects| && 0 <= k < |c.projects| && ProjectMatches(c.projects[k], p.projects[i]);
    ProjectMatchScores(c, p, i, k);
  }

  lemma ProjectMatchScores(c: Candidate, p: SearchParams, i: nat, k: nat)
    requires i < |p.projects| && k < |c.projects| && ProjectMatches(c.projects[k], p.projects[i])
    ensures ProjectScore(c, p) > 0.0
  {
    ProjectMatchIsHit(c, k, p.projects[i]);
    var h := HitCount(Haystack(c), p.projects);
    HitCountPositive(Haystack(c), p.projects, i);
    assert ProjectScore(c, p) == h as real / |p.projects| as real;
    DivideKeepsOrder(h as real, 0.0, |p.projects| as real);
  }
}
