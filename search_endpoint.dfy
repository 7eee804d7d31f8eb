/** The candidate search endpoint: reads the JSON body with its defaults,
    filters and scores the pool, ranks by score with a stable descending sort
    and cuts out one page of ten. */
module SearchEndpoint {
  import opened Wrappers
  import opened CandidateModels
  import opened CandidateSearch
  import Text
  import Seqs

  /** A decoded JSON value. An object keeps its entries in document order. */
  datatype Value =
    | Null
    | Bool(b: bool)
    | Int(i: int)
    | Float(x: real)
    | Str(s: string)
    | List(items: seq<Value>)
    | Obj(entries: seq<(string, Value)>)

  /** Python truthiness of a value. */
  predicate Truthy(v: Value) {
    match v
    case Null => false
    case Bool(b) => b
    case Int(i) => i != 0
    case Float(x) => x != 0.0
    case Str(s) => s != []
    case List(items) => items != []
    case Obj(entries) => entries != []
  }

  /** `d.get(key)`: a decoded object keeps the last value given for a key. */
  function Get(entries: seq<(string, Value)>, key: string): (r: Option<Value>)
    ensures r.None? <==> forall i :: 0 <= i < |entries| ==> entries[i].0 != key
    ensures r.Some? ==> exists i :: 0 <= i < |entries| && entries[i] == (key, r.value)
  {
    if entries == [] then None
    else if entries[|entries| - 1].0 == key then Some(entries[|entries| - 1].1)
    else Get(entries[..|entries| - 1], key)
  }

  /** A key given twice reads as its last value. */
  lemma {:induction false} GetIsLast(entries: seq<(string, Value)>, key: string, i: nat)
    requires i < |entries| && entries[i].0 == key
    requires forall j :: i < j < |entries| ==> entries[j].0 != key
    ensures Get(entries, key) == Some(entries[i].1)
    decreases |entries|
  {
    if i < |entries| - 1 {
      GetIsLast(entries[..|entries| - 1], key, i);
    }
  }

  /** The keys of an object's entries in document order, repeats included. */
  function EntryKeys(entries: seq<(string, Value)>): (r: seq<string>)
    ensures |r| == |entries| && forall i :: 0 <= i < |entries| ==> r[i] == entries[i].0
  {
    seq(|entries|, i requires 0 <= i < |entries| => entries[i].0)
  }

  /** The keys of the dictionary `json.loads` builds from an object: every
      key of the object, each once, at the place it first appears. */
  function DictKeys(entries: seq<(string, Value)>): (r: seq<string>)
    ensures forall k :: k in r <==> k in EntryKeys(entries)
    ensures forall i, j :: 0 <= i < j < |r| ==> r[i] != r[j]
    decreases |entries|
  {
    if entries == [] then []
    else
      var init := entries[..|entries| - 1];
      var key := entries[|entries| - 1].0;
      assert EntryKeys(entries) == EntryKeys(init) + [key];
      var keys := DictKeys(init);
      if key in keys then keys else keys + [key]
  }

  /** An object without repeated keys gives its keys in document order. */
  lemma {:induction false} DictKeysOfDistinct(entries: seq<(string, Value)>)
    requires forall i, j :: 0 <= i < j < |entries| ==> entries[i].0 != entries[j].0
    ensures DictKeys(entries) == EntryKeys(entries)
    decreases |entries|
  {
    if entries != [] {
      var init := entries[..|entries| - 1];
      DictKeysOfDistinct(init);
      assert EntryKeys(entries) == EntryKeys(init) + [entries[|entries| - 1].0];
      assert entries[|entries| - 1].0 !in EntryKeys(init);
    }
  }

  /** `d.get(key, default)`. */
  function GetOr(entries: seq<(string, Value)>, key: string, default: Value): Value {
    match Get(entries, key)
    case Some(v) => v
    case None => default
  }

  /** `int(v)`: booleans count as 0 and 1, floats are truncated toward zero,
      strings go through integer parsing; anything else is a type error. */
  function IntOf(v: Value): (r: Option<int>)
    ensures v.Int? ==> r == Some(v.i)
    ensures v.Null? || v.List? || v.Obj? ==> r.None?
  {
    match v
    case Bool(b) => Some(if b then 1 else 0)
    case Int(i) => Some(i)
    case Float(x) => Some(if x >= 0.0 then x.Floor else -((-x).Floor))
    case Str(s) => Text.ParseInt(s)
    case _ => None
  }

  /** `float(v)`; the parsing of a numeric string is the parameter `parseFloat`. */
  function FloatOf(v: Value, parseFloat: string -> Option<real>): (r: Option<real>)
    ensures v.Int? ==> r == Some(v.i as real)
    ensures v.Float? ==> r == Some(v.x)
    ensures v.Null? || v.List? || v.Obj? ==> r.None?
  {
    match v
    case Bool(b) => Some(if b then 1.0 else 0.0)
    case Int(i) => Some(i as real)
    case Float(x) => Some(x)
    case Str(s) => parseFloat(s)
    case _ => None
  }

  /** `str(v)`: exact for strings, integers, booleans and null; the text of a
      float, list or object is the parameter `repr`. */
  function StrOf(v: Value, repr: Value -> string): string {
    match v
    case Null => "None"
    case Bool(b) => if b then "True" else "False"
    case Int(i) => Text.IntToString(i)
    case Str(s) => s
    case _ => repr(v)
  }

  /** `[str(s) for s in v]` for a value that is truthy: a list gives its items,
      a string its characters, an object its dictionary's keys (a repeated
      key once); a truthy scalar is not iterable. */
  function StrList(v: Value, repr: Value -> string): (r: Option<seq<string>>)
    ensures v.List? ==> r.Some? && |r.value| == |v.items|
    ensures v.List? ==> forall i :: 0 <= i < |v.items| ==> r.value[i] == StrOf(v.items[i], repr)
    ensures v.Str? ==> r.Some? && |r.value| == |v.s|
    ensures v.Str? ==> forall i :: 0 <= i < |v.s| ==> r.value[i] == [v.s[i]]
    ensures v.Obj? ==> r.Some? && forall k :: k in r.value <==> k in EntryKeys(v.entries)
    ensures v.Obj? ==> forall i, j :: 0 <= i < j < |r.value| ==> r.value[i] != r.value[j]
    ensures v.Bool? || v.Int? || v.Float? || v.Null? ==> r.None?
  {
    match v
    case List(items) => Some(seq(|items|, i requires 0 <= i < |items| => StrOf(items[i], repr)))
    case Str(s) => Some(seq(|s|, i requires 0 <= i < |s| => [s[i]]))
    case Obj(entries) => Some(DictKeys(entries))
    case _ => None
  }

  /** `body.get(key, []) or []`, then stringified. */
  function ListField(entries: seq<(string, Value)>, key: string, repr: Value -> string): Option<seq<string>> {
    var v := GetOr(entries, key, List([]));
    if Truthy(v) then StrList(v, repr) else Some([])
  }

  /** An optional coordinate: absent or null is None, anything else goes
      through `float`. */
  function CoordField(location: seq<(string, Value)>, key: string, parseFloat: string -> Option<real>): Result<Option<real>, string> {
    match Get(location, key)
    case None => Success(None)
    case Some(Null) => Success(None)
    case Some(v) =>
      match FloatOf(v, parseFloat)
      case Some(x) => Success(Some(x))
      case None => Failure(key)
  }

  /** The body as a dictionary: anything that is not an object reads as `{}`. */
  function BodyEntries(data: Value): seq<(string, Value)> {
    if data.Obj? then data.entries else []
  }

  /** The search parameters read from the body, or the name of the field whose
      conversion raises, in the order the fields are converted. */
  function BuildParams(data: Value, parseFloat: string -> Option<real>, repr: Value -> string): (r: Result<SearchParams, string>)
    ensures r.Success? ==> r.value.requireAllSkills == Truthy(GetOr(BodyEntries(data), "requireAllSkills", Bool(false)))
  {
    var body := BodyEntries(data);
    match IntOf(GetOr(body, "minSkillLevel", Int(3)))
    case None => Failure("minSkillLevel")
    case Some(minLevel) => ParamsWithLevel(body, minLevel, parseFloat, repr)
  }

  /** The fields read after the minimum level: the location, which must be a
      dictionary when truthy, the skill and project lists, then the three
      coordinates. */
  function ParamsWithLevel(body: seq<(string, Value)>, minLevel: int,
                           parseFloat: string -> Option<real>, repr: Value -> string): (r: Result<SearchParams, string>)
    ensures r.Success? ==> && r.value.minSkillLevel == minLevel
                           && r.value.requireAllSkills == Truthy(GetOr(body, "requireAllSkills", Bool(false)))
                           && ListField(body, "skills", repr) == Some(r.value.skills)
                           && ListField(body, "projects", repr) == Some(r.value.projects)
  {
    var requireAll := Truthy(GetOr(body, "requireAllSkills", Bool(false)));
    var location := GetOr(body, "location", Null);
    if Truthy(location) && !location.Obj? then Failure("location")
    else
      var loc := if location.Obj? then location.entries else [];
      match ListField(body, "skills", repr)
      case None => Failure("skills")
      case Some(skills) =>
        match ListField(body, "projects", repr)
        case None => Failure("projects")
        case Some(projects) =>
          var lat :- CoordField(loc, "lat", parseFloat);
          var lng :- CoordField(loc, "lng", parseFloat);
          var radius :- CoordField(loc, "radiusKm", parseFloat);
          Success(SearchParams(skills, requireAll, minLevel, projects, lat, lng, radius))
  }

  /** A body that is not an object, or that names none of the fields, gives
      the defaults: no skills, no projects, any-of mode, minimum level 3 and
      no origin. */
  lemma BuildParamsDefaults(data: Value, parseFloat: string -> Option<real>, repr: Value -> string)
    requires forall i :: 0 <= i < |BodyEntries(data)| ==>
      BodyEntries(data)[i].0 !in ["skills", "projects", "requireAllSkills", "minSkillLevel", "location"]
    ensures BuildParams(data, parseFloat, repr) == Success(SearchParams([], false, 3, [], None, None, None))
  {
    var body := BodyEntries(data);
    assert forall i :: 0 <= i < |body| ==> body[i].0 != "skills" && body[i].0 != "projects";
    assert Get(body, "location").None?;
    assert Get(body, "minSkillLevel").None?;
    assert Get(body, "requireAllSkills").None?;
  }

  /** Each field comes from its own key: the minimum level through `int`
      (default 3), the skills and project terms through the list reading; a
      minimum level that does not convert is the first error reported. */
  lemma BuildParamsFields(data: Value, parseFloat: string -> Option<real>, repr: Value -> string)
    ensures var r := BuildParams(data, parseFloat, repr);
      && (r.Success? ==> IntOf(GetOr(BodyEntries(data), "minSkillLevel", Int(3))) == Some(r.value.minSkillLevel))
      && (r.Success? ==> ListField(BodyEntries(data), "skills", repr) == Some(r.value.skills))
      && (r.Success? ==> ListField(BodyEntries(data), "projects", repr) == Some(r.value.projects))
      && (IntOf(GetOr(BodyEntries(data), "minSkillLevel", Int(3))).None? ==> r == Failure("minSkillLevel"))
  {
  }

  /** Null, an empty list and an empty string all mean "no skills". */
  lemma FalsySkillsAreEmpty(body: seq<(string, Value)>, repr: Value -> string)
    requires Get(body, "skills").Some? && !Truthy(Get(body, "skills").value)
    ensures ListField(body, "skills", repr) == Some([])
  {
  }

  /** `requireAllSkills` is read by truthiness: the string "false" turns
      all-of mode on. */
  lemma RequireAllIsTruthiness(data: Value, parseFloat: string -> Option<real>, repr: Value -> string)
    requires data.Obj? && Get(data.entries, "requireAllSkills") == Some(Str("false"))
    requires BuildParams(data, parseFloat, repr).Success?
    ensures BuildParams(data, parseFloat, repr).value.requireAllSkills
  {
    assert GetOr(BodyEntries(data), "requireAllSkills", Bool(false)) == Str("false");
    assert Truthy(Str("false"));
  }

  // ---------------------------------------------------------------------------
  // Ranking

  /** A filtered candidate with its score and, when there is an origin and a
      location, its distance. */
  datatype Scored = Scored(candidate: Candidate, score: real, distanceKm: Option<real>)

  /** `distance_km`: set when both origin coordinates and the candidate's
      location are present, whatever the radius. */
  function DistanceKm(c: Candidate, p: SearchParams, dist: Distance): (r: Option<real>)
    ensures r.Some? <==> p.latitude.Some? && p.longitude.Some? && c.location.Some?
    ensures r.Some? ==> r.value == DistanceTo(c, p, dist)
  {
    if p.latitude.Some? && p.longitude.Some? && c.location.Some? then Some(DistanceTo(c, p, dist)) else None
  }

  function Enrich(c: Candidate, p: SearchParams, dist: Distance): Scored {
    Scored(c, Score(c, p, dist), DistanceKm(c, p, dist))
  }

  /** The candidates in filter order, each with its score and distance. */
  function Enriched(qs: seq<Candidate>, p: SearchParams, dist: Distance): (r: seq<Scored>)
    ensures |r| == |qs|
    ensures forall i :: 0 <= i < |qs| ==> r[i] == Enrich(qs[i], p, dist)
  {
    seq(|qs|, i requires 0 <= i < |qs| => Enrich(qs[i], p, dist))
  }

  /** Non-increasing by score. */
  predicate SortedByScore(s: seq<Scored>) {
    forall i, j :: 0 <= i < j < |s| ==> s[i].score >= s[j].score
  }

  function ScoreIs(v: real): Scored -> bool {
    (e: Scored) => e.score == v
  }

  /** The entries with score `v`, in order. */
  function WithScore(s: seq<Scored>, v: real): seq<Scored> {
    Seqs.Filter(s, ScoreIs(v))
  }

  /** Inserts `x` after every entry that scores at least as much. */
  function InsertByScore(x: Scored, s: seq<Scored>): seq<Scored> {
    if s == [] then [x]
    else if s[0].score >= x.score then [s[0]] + InsertByScore(x, s[1..])
    else [x] + s
  }

  /** The stable sort by score, descending. */
  function SortByScoreDesc(s: seq<Scored>): seq<Scored> {
    if s == [] then [] else InsertByScore(s[|s| - 1], SortByScoreDesc(s[..|s| - 1]))
  }

  /** An entry that scores at least as much as the head of a sorted sequence
      can go in front of it. */
  lemma SortedCons(a: Scored, t: seq<Scored>)
    requires SortedByScore(t) && (t == [] || a.score >= t[0].score)
    ensures SortedByScore([a] + t)
  {
    var r := [a] + t;
    forall i, j | 0 <= i < j < |r|
      ensures r[i].score >= r[j].score
    {
      if i == 0 {
        assert r[j] == t[j - 1];
        assert t[0].score >= t[j - 1].score;
      } else {
        assert r[i] == t[i - 1] && r[j] == t[j - 1];
      }
    }
  }

  lemma {:induction false} InsertByScoreSorted(x: Scored, s: seq<Scored>)
    requires SortedByScore(s)
    ensures SortedByScore(InsertByScore(x, s))
    ensures InsertByScore(x, s)[0] == x || (s != [] && InsertByScore(x, s)[0] == s[0])
    decreases |s|
  {
    if s != [] {
      if s[0].score >= x.score {
        var t := InsertByScore(x, s[1..]);
        InsertByScoreSorted(x, s[1..]);
        assert t[0] == x || t[0] == s[1];
        SortedCons(s[0], t);
      } else {
        SortedCons(x, s);
      }
    }
  }

  lemma {:induction false} InsertByScorePermutes(x: Scored, s: seq<Scored>)
    ensures multiset(InsertByScore(x, s)) == multiset(s) + multiset{x}
    decreases |s|
  {
    if s != [] && s[0].score >= x.score {
      InsertByScorePermutes(x, s[1..]);
      assert s == [s[0]] + s[1..];
    }
  }

  /** Everything in a sorted sequence headed by a lower score is lower. */
  lemma AllBelow(s: seq<Scored>, v: real)
    requires SortedByScore(s) && s != [] && s[0].score < v
    ensures WithScore(s, v) == []
  {
    forall e | e in s
      ensures !ScoreIs(v)(e)
    {
      var j :| 0 <= j < |s| && s[j] == e;
    }
    Seqs.FilterDropsAll(s, ScoreIs(v));
  }

  lemma {:induction false} InsertByScoreStable(x: Scored, s: seq<Scored>, v: real)
    requires SortedByScore(s)
    ensures WithScore(InsertByScore(x, s), v) == WithScore(s, v) + WithScore([x], v)
    decreases |s|
  {
    if s == [] {
    } else if s[0].score >= x.score {
      assert SortedByScore(s[1..]);
      InsertByScoreStable(x, s[1..], v);
      InsertBehindStable(x, s, v);
    } else {
      InsertInFrontStable(x, s, v);
    }
  }

  /** The step of `InsertByScoreStable` where `x` goes behind the head. */
  lemma InsertBehindStable(x: Scored, s: seq<Scored>, v: real)
    requires s != [] && s[0].score >= x.score
    requires WithScore(InsertByScore(x, s[1..]), v) == WithScore(s[1..], v) + WithScore([x], v)
    ensures WithScore(InsertByScore(x, s), v) == WithScore(s, v) + WithScore([x], v)
  {
    var t, u := s[1..], InsertByScore(x, s);
    InsertBehind(x, s);
    assert u != [] && u[0] == s[0] && u[1..] == InsertByScore(x, t);
    var head := if s[0].score == v then [s[0]] else [];
    assert WithScore(u, v) == head + WithScore(u[1..], v);
    assert WithScore(s, v) == head + WithScore(t, v);
    Seqs.AppendAssoc(head, WithScore(t, v), WithScore([x], v));
  }

  lemma InsertBehind(x: Scored, s: seq<Scored>)
    requires s != [] && s[0].score >= x.score
    ensures InsertByScore(x, s) == [s[0]] + InsertByScore(x, s[1..])
  {
  }

  /** The step of `InsertByScoreStable` where `x` goes in front. */
  lemma InsertInFrontStable(x: Scored, s: seq<Scored>, v: real)
    requires SortedByScore(s) && s != [] && s[0].score < x.score
    ensures WithScore(InsertByScore(x, s), v) == WithScore(s, v) + WithScore([x], v)
  {
    assert InsertByScore(x, s) == [x] + s;
    Seqs.FilterAppend([x], s, ScoreIs(v));
    if x.score == v {
      AllBelow(s, v);
    } else {
      assert WithScore([x], v) == [];
    }
  }

  /** The sort yields a non-increasing permutation of its input. */
  lemma {:induction false} SortByScoreDescSorted(s: seq<Scored>)
    ensures SortedByScore(SortByScoreDesc(s))
    ensures multiset(SortByScoreDesc(s)) == multiset(s)
    decreases |s|
  {
    if s != [] {
      var init := s[..|s| - 1];
      SortByScoreDescSorted(init);
      InsertByScoreSorted(s[|s| - 1], SortByScoreDesc(init));
      InsertByScorePermutes(s[|s| - 1], SortByScoreDesc(init));
      assert s == init + [s[|s| - 1]];
    }
  }

  /** Stability: for every score, the entries with that score come out in the
      order they went in. */
  lemma {:induction false} SortByScoreDescStable(s: seq<Scored>, v: real)
    ensures WithScore(SortByScoreDesc(s), v) == WithScore(s, v)
    decreases |s|
  {
    if s != [] {
      var init, last := s[..|s| - 1], s[|s| - 1];
      assert s == init + [last];
      SortByScoreDescSorted(init);
      calc {
        WithScore(SortByScoreDesc(s), v);
        { InsertByScoreStable(last, SortByScoreDesc(init), v); }
        WithScore(SortByScoreDesc(init), v) + WithScore([last], v);
        { SortByScoreDescStable(init, v); }
        WithScore(init, v) + WithScore([last], v);
        { Seqs.FilterAppend(init, [last], ScoreIs(v)); }
        WithScore(s, v);
      }
    }
  }

  // ---------------------------------------------------------------------------
  // Pages

  const PageSize: nat := 10

  /** The paginator's page count: at least one page, even for no results. */
  function NumPages(count: nat): (r: nat)
    ensures r >= 1
    ensures (r - 1) * PageSize <= count
    ensures count <= r * PageSize
    ensures count > 0 ==> (r - 1) * PageSize < count
  {
    if count == 0 then 1 else (count + PageSize - 1) / PageSize
  }

  /** `get_page`: a number outside 1..num_pages gives the last page. */
  function ClampPage(number: int, numPages: nat): (r: nat)
    requires numPages >= 1
    ensures 1 <= r <= numPages
    ensures 1 <= number <= numPages ==> r == number
    ensures !(1 <= number <= numPages) ==> r == numPages
  {
    if 1 <= number <= numPages then number else numPages
  }

  /** The entries of page `number` (counted from 1). */
  function PageItems(ranked: seq<Scored>, number: nat): (r: seq<Scored>)
    requires number >= 1
    ensures |r| <= PageSize
  {
    var bottom := (number - 1) * PageSize;
    var top := if bottom + PageSize >= |ranked| then |ranked| else bottom + PageSize;
    if bottom <= |ranked| then ranked[bottom..top] else []
  }

  function PagesUpTo(ranked: seq<Scored>, k: nat): seq<Scored> {
    if k == 0 then [] else PagesUpTo(ranked, k - 1) + PageItems(ranked, k)
  }

  /** The first `k` pages are the first `10·k` entries. */
  lemma {:induction false} PagesUpToPrefix(ranked: seq<Scored>, k: nat)
    ensures PagesUpTo(ranked, k) == ranked[..if k * PageSize <= |ranked| then k * PageSize else |ranked|]
  {
    if k > 0 {
      PagesUpToPrefix(ranked, k - 1);
    }
  }

  /** Read in order, the pages hold every entry exactly once. */
  lemma PagesCoverRanking(ranked: seq<Scored>)
    ensures PagesUpTo(ranked, NumPages(|ranked|)) == ranked
  {
    PagesUpToPrefix(ranked, NumPages(|ranked|));
  }

  // ---------------------------------------------------------------------------
  // Endpoint

  datatype Response = Response(count: nat, numPages: nat, page: nat, results: seq<Scored>)

  /** The whole filtered pool, scored and ranked. */
  function Ranked(pool: seq<Candidate>, p: SearchParams, dist: Distance): seq<Scored> {
    SortByScoreDesc(Enriched(Filtered(pool, p, dist), p, dist))
  }

  function Respond(ranked: seq<Scored>, number: int): (r: Response)
    ensures r.count == |ranked| && 1 <= r.page <= r.numPages
  {
    var pages := NumPages(|ranked|);
    var page := ClampPage(number, pages);
    Response(|ranked|, pages, page, PageItems(ranked, page))
  }

  /** The view's loop over the filtered candidates: each is scored, and its
      distance is reported when the origin and its location are known. */
  method EnrichAll(qs: seq<Candidate>, params: SearchParams, dist: Distance) returns (enriched: seq<Scored>)
    ensures enriched == Enriched(qs, params, dist)
  {
    enriched := [];
    for i := 0 to |qs|
      invariant enriched == Enriched(qs[..i], params, dist)
    {
      assert Enriched(qs[..i + 1], params, dist) == Enriched(qs[..i], params, dist) + [Enrich(qs[i], params, dist)];
      var c := qs[i];
      var score := ScoreCandidate(c, params, dist);
      var distanceKm: Option<real> := None;
      if params.latitude.Some? && params.longitude.Some? && c.location.Some? {
        distanceKm := Some(dist(params.latitude.value, params.longitude.value, c.location.value.latitude, c.location.value.longitude));
      }
      enriched := enriched + [Scored(c, score, distanceKm)];
    }
    assert qs[..|qs|] == qs;
  }

  /** `search_candidates`: reads the parameters, filters, scores every
      candidate in a loop, sorts and returns the requested page; a body field
      that does not convert is an error. */
  method SearchCandidates(pool: seq<Candidate>, data: Value, dist: Distance,
                          parseFloat: string -> Option<real>, repr: Value -> string)
    returns (r: Result<Response, string>)
    requires IdsDistinct(pool)
    ensures BuildParams(data, parseFloat, repr).Failure? ==> r == Failure(BuildParams(data, parseFloat, repr).error)
    ensures BuildParams(data, parseFloat, repr).Success? ==>
      var p := BuildParams(data, parseFloat, repr).value;
      match IntOf(GetOr(BodyEntries(data), "page", Int(1)))
      case None => r == Failure("page")
      case Some(n) => r == Success(Respond(Ranked(pool, p, dist), n))
  {
    var params :- BuildParams(data, parseFloat, repr);
    var qs := FilterCandidates(pool, params, dist);
    var enriched := EnrichAll(qs, params, dist);
    var ranked := SortByScoreDesc(enriched);
    var page := IntOf(GetOr(BodyEntries(data), "page", Int(1)));
    if page.None? {
      return Failure("page");
    }
    r := Success(Respond(ranked, page.value));
  }

  /** The ranking is a permutation of the scored filter result: every filtered
      candidate appears exactly once, with its own score and distance. */
  lemma RankedIsPermutation(pool: seq<Candidate>, p: SearchParams, dist: Distance)
    ensures multiset(Ranked(pool, p, dist)) == multiset(Enriched(Filtered(pool, p, dist), p, dist))
    ensures |Ranked(pool, p, dist)| == |Filtered(pool, p, dist)|
    ensures forall e :: e in Ranked(pool, p, dist) ==>
      e.candidate in Filtered(pool, p, dist) && e == Enrich(e.candidate, p, dist)
  {
    var en := Enriched(Filtered(pool, p, dist), p, dist);
    SortByScoreDescSorted(en);
    var r := Ranked(pool, p, dist);
    assert |r| == |multiset(r)| == |multiset(en)| == |en|;
    forall e | e in r
      ensures e.candidate in Filtered(pool, p, dist) && e == Enrich(e.candidate, p, dist)
    {
      assert e in multiset(en);
      var i :| 0 <= i < |en| && en[i] == e;
    }
  }

  /** The ranking is in non-increasing score order, and entries with equal
      scores keep their filter order. */
  lemma RankedIsSortedAndStable(pool: seq<Candidate>, p: SearchParams, dist: Distance, v: real)
    ensures SortedByScore(Ranked(pool, p, dist))
    ensures WithScore(Ranked(pool, p, dist), v) == WithScore(Enriched(Filtered(pool, p, dist), p, dist), v)
  {
    var en := Enriched(Filtered(pool, p, dist), p, dist);
    SortByScoreDescSorted(en);
    SortByScoreDescStable(en, v);
  }

  /** The reported count is the number of filtered candidates, and every page
      holds at most ten. */
  lemma ResponseCounts(pool: seq<Candidate>, p: SearchParams, dist: Distance, number: int)
    ensures Respond(Ranked(pool, p, dist), number).count == |Filtered(pool, p, dist)|
    ensures |Respond(Ranked(pool, p, dist), number).results| <= PageSize
  {
    RankedIsPermutation(pool, p, dist);
  }
}
