/** The public job listing with its query-string filters, and the access
    rule of the job edit view. */
module JobsListing {
  import opened Wrappers
  import Text
  import Seqs

  /** A job posting. Salaries may be null; the poster may have been deleted. */
  datatype Job = Job(
    id: nat,
    title: string,
    description: string,
    skills: string,
    location: string,
    salaryMin: Option<nat>,
    salaryMax: Option<nat>,
    isRemote: bool,
    visaSponsorship: bool,
    postedBy: Option<nat>,
    isActive: bool)

  /** The query-string parameters of the listing; each may be absent. */
  datatype Query = Query(
    title: Option<string>,
    skills: Option<string>,
    location: Option<string>,
    salaryMin: Option<string>,
    salaryMax: Option<string>,
    isRemote: Option<string>,
    visa: Option<string>)

  const NoQuery := Query(None, None, None, None, None, None, None)

  /** A parameter is used only when present and non-empty. */
  predicate Given(v: Option<string>) {
    v.Some? && v.value != []
  }

  /** The flag values that switch a boolean filter on. */
  predicate FlagOn(v: Option<string>) {
    v.Some? && v.value in {"1", "true", "True"}
  }

  /** The trimmed, non-blank comma-separated pieces of `s`, in order. */
  function Tokens(s: string): seq<string> {
    TrimmedNonBlank(Text.Split(s, ","))
  }

  /** Each part with its outer whitespace stripped, blank ones dropped. */
  function TrimmedNonBlank(parts: seq<string>): (r: seq<string>)
    ensures forall i :: 0 <= i < |r| ==> r[i] != []
  {
    if parts == [] then []
    else
      var t, rest := Text.Trim(parts[0]), TrimmedNonBlank(parts[1..]);
      if t != [] then [t] + rest else rest
  }

  /** Every token is non-blank and has no outer whitespace. */
  lemma {:induction false} TokensAreTrimmed(parts: seq<string>)
    ensures forall t :: t in TrimmedNonBlank(parts) ==> t != [] && Text.Trimmed(t, Text.Whitespace)
    decreases |parts|
  {
    if parts != [] {
      TokensAreTrimmed(parts[1..]);
      assert Text.Trimmed(Text.Trim(parts[0]), Text.Whitespace);
    }
  }

  predicate TitleOk(q: Query, j: Job) {
    !Given(q.title) || Text.IContains(j.title, q.title.value)
  }

  /** Every token must occur in the job's skills text, ignoring case. */
  predicate SkillsOk(q: Query, j: Job) {
    !Given(q.skills) || forall t :: t in Tokens(q.skills.value) ==> Text.IContains(j.skills, t)
  }

  predicate LocationOk(q: Query, j: Job) {
    !Given(q.location) || Text.IContains(j.location, q.location.value)
  }

  /** With an integer minimum `s`: the job's maximum or its minimum reaches
      `s`. A null salary never satisfies a comparison. A parameter that is not
      an integer is ignored. */
  predicate SalaryMinOk(q: Query, j: Job) {
    !Given(q.salaryMin) || Text.ParseInt(q.salaryMin.value).None? ||
    var s := Text.ParseInt(q.salaryMin.value).value;
    (j.salaryMax.Some? && j.salaryMax.value >= s) || (j.salaryMin.Some? && j.salaryMin.value >= s)
  }

  /** With an integer maximum `s`: the job's minimum or its maximum is at
      most `s`. */
  predicate SalaryMaxOk(q: Query, j: Job) {
    !Given(q.salaryMax) || Text.ParseInt(q.salaryMax.value).None? ||
    var s := Text.ParseInt(q.salaryMax.value).value;
    (j.salaryMin.Some? && j.salaryMin.value <= s) || (j.salaryMax.Some? && j.salaryMax.value <= s)
  }

  predicate RemoteOk(q: Query, j: Job) {
    FlagOn(q.isRemote) ==> j.isRemote
  }

  predicate VisaOk(q: Query, j: Job) {
    FlagOn(q.visa) ==> j.visaSponsorship
  }

  /** A job is listed iff it is active and passes every filter. */
  predicate Listed(q: Query, j: Job) {
    && j.isActive
    && TitleOk(q, j) && SkillsOk(q, j) && LocationOk(q, j)
    && SalaryMinOk(q, j) && SalaryMaxOk(q, j)
    && RemoteOk(q, j) && VisaOk(q, j)
  }

  function ListedTest(q: Query): Job -> bool {
    j => Listed(q, j)
  }

  /** The tests the view applies one after the other. */
  function ActiveTest(): Job -> bool { (j: Job) => j.isActive }
  function TokenTest(t: string): Job -> bool { (j: Job) => Text.IContains(j.skills, t) }

  /** Every one of `tokens` occurs in the job's skills text. */
  function AllTokensTest(tokens: seq<string>): Job -> bool {
    (j: Job) => forall t :: t in tokens ==> Text.IContains(j.skills, t)
  }

  /** Stage `k` of the listing: 1 title, 2 skills, 3 location, 4 minimum
      salary, 5 maximum salary, 6 remote, 7 visa. */
  predicate StageOk(q: Query, k: nat, j: Job) {
    if k == 1 then TitleOk(q, j)
    else if k == 2 then SkillsOk(q, j)
    else if k == 3 then LocationOk(q, j)
    else if k == 4 then SalaryMinOk(q, j)
    else if k == 5 then SalaryMaxOk(q, j)
    else if k == 6 then RemoteOk(q, j)
    else if k == 7 then VisaOk(q, j)
    else true
  }

  function StageTest(q: Query, k: nat): Job -> bool {
    j => StageOk(q, k, j)
  }

  /** Active and through the first `k` stages. */
  predicate UpTo(q: Query, k: nat, j: Job) {
    j.isActive && forall m | 1 <= m <= k :: StageOk(q, m, j)
  }

  function UpToTest(q: Query, k: nat): Job -> bool {
    j => UpTo(q, k, j)
  }

  /** Whether the view runs stage `k` for this query. */
  predicate StageUsed(q: Query, k: nat) {
    if k == 1 then Given(q.title)
    else if k == 2 then Given(q.skills)
    else if k == 3 then Given(q.location)
    else if k == 4 then Given(q.salaryMin) && Text.ParseInt(q.salaryMin.value).Some?
    else if k == 5 then Given(q.salaryMax) && Text.ParseInt(q.salaryMax.value).Some?
    else if k == 6 then FlagOn(q.isRemote)
    else if k == 7 then FlagOn(q.visa)
    else false
  }

  /** Running stage `k + 1` on the jobs through stage `k`. */
  lemma Advance(jobs: seq<Job>, q: Query, k: nat, qs: seq<Job>)
    requires qs == Seqs.Filter(jobs, UpToTest(q, k))
    ensures Seqs.Filter(qs, StageTest(q, k + 1)) == Seqs.Filter(jobs, UpToTest(q, k + 1))
  {
    forall j | j in jobs
      ensures UpToTest(q, k + 1)(j) == (UpToTest(q, k)(j) && StageTest(q, k + 1)(j))
    {
      if UpTo(q, k, j) && StageOk(q, k + 1, j) {
        assert forall m | 1 <= m <= k + 1 :: StageOk(q, m, j) by {
          forall m | 1 <= m <= k + 1 ensures StageOk(q, m, j) {
            if m <= k {
              assert StageOk(q, m, j);
            }
          }
        }
      }
    }
    Seqs.FilterFilter(jobs, UpToTest(q, k), StageTest(q, k + 1), UpToTest(q, k + 1));
  }

  /** The active jobs are the jobs through no stage. */
  lemma ActiveIsUpToZero(jobs: seq<Job>, q: Query)
    ensures Seqs.Filter(jobs, ActiveTest()) == Seqs.Filter(jobs, UpToTest(q, 0))
  {
    Seqs.FilterExt(jobs, ActiveTest(), UpToTest(q, 0));
  }

  /** Stage `k + 1`, run or skipped as the view does. */
  lemma Stage(jobs: seq<Job>, q: Query, k: nat, before: seq<Job>, after: seq<Job>)
    requires before == Seqs.Filter(jobs, UpToTest(q, k))
    requires after == Narrowed(before, q, k + 1)
    ensures after == Seqs.Filter(jobs, UpToTest(q, k + 1))
  {
    if !StageUsed(q, k + 1) {
      forall j | j in before ensures StageTest(q, k + 1)(j) {
        UnusedStagePasses(q, k + 1, j);
      }
      Seqs.FilterKeepsAll(before, StageTest(q, k + 1));
    }
    Advance(jobs, q, k, before);
  }

  /** A stage the view skips lets every job through. */
  lemma UnusedStagePasses(q: Query, k: nat, j: Job)
    requires !StageUsed(q, k)
    ensures StageOk(q, k, j)
  {
  }

  /** One more token narrows the jobs carrying all earlier tokens to the jobs
      carrying all of them. */
  lemma TokenStep(qs: seq<Job>, tokens: seq<string>, i: nat)
    requires i < |tokens|
    ensures Seqs.Filter(Seqs.Filter(qs, AllTokensTest(tokens[..i])), TokenTest(tokens[i]))
         == Seqs.Filter(qs, AllTokensTest(tokens[..i + 1]))
  {
    assert tokens[..i + 1] == tokens[..i] + [tokens[i]];
    Seqs.FilterFilter(qs, AllTokensTest(tokens[..i]), TokenTest(tokens[i]), AllTokensTest(tokens[..i + 1]));
  }

  /** Requiring every token of the parameter is the skills stage. */
  lemma AllTokensIsSkillsStage(qs: seq<Job>, q: Query)
    requires Given(q.skills)
    ensures Seqs.Filter(qs, AllTokensTest(Tokens(q.skills.value))) == Seqs.Filter(qs, StageTest(q, 2))
  {
    Seqs.FilterExt(qs, AllTokensTest(Tokens(q.skills.value)), StageTest(q, 2));
  }

  /** No token keeps every job. */
  lemma NoTokens(qs: seq<Job>)
    ensures Seqs.Filter(qs, AllTokensTest([])) == qs
  {
    Seqs.FilterKeepsAll(qs, AllTokensTest([]));
  }

  /** The skill-token loop: narrows by one trimmed, non-blank token at a
      time, which is the skills stage. */
  method FilterBySkills(qs: seq<Job>, q: Query) returns (r: seq<Job>)
    requires Given(q.skills)
    ensures r == Seqs.Filter(qs, StageTest(q, 2))
  {
    var tokens := Tokens(q.skills.value);
    r := qs;
    NoTokens(qs);
    for i := 0 to |tokens|
      invariant r == Seqs.Filter(qs, AllTokensTest(tokens[..i]))
    {
      var skill := tokens[i];
      TokenStep(qs, tokens, i);
      r := Seqs.Filter(r, TokenTest(skill));
    }
    assert tokens[..|tokens|] == tokens;
    AllTokensIsSkillsStage(qs, q);
  }

  /** Stage `k` run when the view runs it, skipped otherwise. */
  function Narrowed(qs: seq<Job>, q: Query, k: nat): seq<Job> {
    if StageUsed(q, k) then Seqs.Filter(qs, StageTest(q, k)) else qs
  }

  /** The `title` parameter: a case-insensitive substring of the title. */
  method ByTitle(qs: seq<Job>, q: Query) returns (r: seq<Job>)
    ensures r == Narrowed(qs, q, 1)
  {
    r := qs;
    if q.title.Some? && q.title.value != [] {
      r := Seqs.Filter(r, StageTest(q, 1));
    }
  }

  /** The `skills` parameter, token by token. */
  method BySkills(qs: seq<Job>, q: Query) returns (r: seq<Job>)
    ensures r == Narrowed(qs, q, 2)
  {
    r := qs;
    if q.skills.Some? && q.skills.value != [] {
      r := FilterBySkills(r, q);
    }
  }

  /** The `location` parameter: a case-insensitive substring of the location. */
  method ByLocation(qs: seq<Job>, q: Query) returns (r: seq<Job>)
    ensures r == Narrowed(qs, q, 3)
  {
    r := qs;
    if q.location.Some? && q.location.value != [] {
      r := Seqs.Filter(r, StageTest(q, 3));
    }
  }

  /** The `salary_min` parameter, ignored unless it is an integer. */
  method BySalaryMin(qs: seq<Job>, q: Query) returns (r: seq<Job>)
    ensures r == Narrowed(qs, q, 4)
  {
    r := qs;
    if q.salaryMin.Some? && q.salaryMin.value != [] {
      var smin := Text.ParseInt(q.salaryMin.value);
      if smin.Some? {
        r := Seqs.Filter(r, StageTest(q, 4));
      }
    }
  }

  /** The `salary_max` parameter, ignored unless it is an integer. */
  method BySalaryMax(qs: seq<Job>, q: Query) returns (r: seq<Job>)
    ensures r == Narrowed(qs, q, 5)
  {
    r := qs;
    if q.salaryMax.Some? && q.salaryMax.value != [] {
      var smax := Text.ParseInt(q.salaryMax.value);
      if smax.Some? {
        r := Seqs.Filter(r, StageTest(q, 5));
      }
    }
  }

  /** The `is_remote` flag. */
  method ByRemote(qs: seq<Job>, q: Query) returns (r: seq<Job>)
    ensures r == Narrowed(qs, q, 6)
  {
    r := qs;
    if q.isRemote.Some? && q.isRemote.value in {"1", "true", "True"} {
      r := Seqs.Filter(r, StageTest(q, 6));
    }
  }

  /** The `visa_sponsorship` flag. */
  method ByVisa(qs: seq<Job>, q: Query) returns (r: seq<Job>)
    ensures r == Narrowed(qs, q, 7)
  {
    r := qs;
    if q.visa.Some? && q.visa.value in {"1", "true", "True"} {
      r := Seqs.Filter(r, StageTest(q, 7));
    }
  }

  /** `job_list`: starts from the active jobs and narrows by each parameter
      in turn, one skill token at a time. The jobs come in listing order and
      keep it. */
  method JobList(jobs: seq<Job>, q: Query) returns (qs: seq<Job>)
    ensures qs == Seqs.Filter(jobs, ListedTest(q))
  {
    qs := Seqs.Filter(jobs, ActiveTest());
    ActiveIsUpToZero(jobs, q);
    var before := qs;
    qs := ByTitle(qs, q);
    Stage(jobs, q, 0, before, qs);
    before := qs;
    qs := BySkills(qs, q);
    Stage(jobs, q, 1, before, qs);
    before := qs;
    qs := ByLocation(qs, q);
    Stage(jobs, q, 2, before, qs);
    before := qs;
    qs := BySalaryMin(qs, q);
    Stage(jobs, q, 3, before, qs);
    before := qs;
    qs := BySalaryMax(qs, q);
    Stage(jobs, q, 4, before, qs);
    before := qs;
    qs := ByRemote(qs, q);
    Stage(jobs, q, 5, before, qs);
    before := qs;
    qs := ByVisa(qs, q);
    Stage(jobs, q, 6, before, qs);
    AllStagesAreListed(jobs, q);
  }

  lemma AllStagesAreListed(jobs: seq<Job>, q: Query)
    ensures Seqs.Filter(jobs, UpToTest(q, 7)) == Seqs.Filter(jobs, ListedTest(q))
  {
    forall j ensures UpToTest(q, 7)(j) == ListedTest(q)(j) {
      if Listed(q, j) {
        assert forall m | 1 <= m <= 7 :: StageOk(q, m, j);
      }
      if UpTo(q, 7, j) {
        assert StageOk(q, 1, j) && StageOk(q, 2, j) && StageOk(q, 3, j) && StageOk(q, 4, j);
        assert StageOk(q, 5, j) && StageOk(q, 6, j) && StageOk(q, 7, j);
      }
    }
    Seqs.FilterExt(jobs, UpToTest(q, 7), ListedTest(q));
  }

  /** Only active jobs are listed, and an active job is listed iff it passes
      every supplied filter. */
  lemma ListedOnlyActive(jobs: seq<Job>, q: Query, j: Job)
    ensures j in Seqs.Filter(jobs, ListedTest(q)) <==>
      && j in jobs && j.isActive
      && TitleOk(q, j) && SkillsOk(q, j) && LocationOk(q, j) && SalaryMinOk(q, j)
      && SalaryMaxOk(q, j) && RemoteOk(q, j) && VisaOk(q, j)
  {
  }

  /** With no parameters the listing is exactly the active jobs. */
  lemma NoQueryListsActive(jobs: seq<Job>)
    ensures Seqs.Filter(jobs, ListedTest(NoQuery)) == Seqs.Filter(jobs, ActiveTest())
  {
    Seqs.FilterExt(jobs, ListedTest(NoQuery), ActiveTest());
  }

  /** `q` asks for at least what `base` asks for: every parameter `base` uses,
      `q` uses with the same value. */
  predicate Extends(q: Query, base: Query) {
    && (!Given(base.title) || q.title == base.title)
    && (!Given(base.skills) || q.skills == base.skills)
    && (!Given(base.location) || q.location == base.location)
    && (!Given(base.salaryMin) || q.salaryMin == base.salaryMin)
    && (!Given(base.salaryMax) || q.salaryMax == base.salaryMax)
    && (!FlagOn(base.isRemote) || q.isRemote == base.isRemote)
    && (!FlagOn(base.visa) || q.visa == base.visa)
  }

  /** Each further parameter only narrows: the listing for `q` is the listing
      for `base`, filtered further. */
  lemma MoreParametersNarrow(jobs: seq<Job>, q: Query, base: Query)
    requires Extends(q, base)
    ensures Seqs.Filter(Seqs.Filter(jobs, ListedTest(base)), ListedTest(q)) == Seqs.Filter(jobs, ListedTest(q))
  {
    forall j | j in jobs
      ensures ListedTest(q)(j) == (ListedTest(base)(j) && ListedTest(q)(j))
    {
    }
    Seqs.FilterFilter(jobs, ListedTest(base), ListedTest(q), ListedTest(q));
  }

  /** A salary parameter that is not an integer leaves the listing unchanged. */
  lemma NonIntegerSalaryIgnored(jobs: seq<Job>, q: Query, s: string)
    requires Text.ParseInt(s).None?
    ensures Seqs.Filter(jobs, ListedTest(q.(salaryMin := Some(s)))) == Seqs.Filter(jobs, ListedTest(q.(salaryMin := None)))
    ensures Seqs.Filter(jobs, ListedTest(q.(salaryMax := Some(s)))) == Seqs.Filter(jobs, ListedTest(q.(salaryMax := None)))
  {
    var q1, q2 := q.(salaryMin := Some(s)), q.(salaryMin := None);
    forall j ensures ListedTest(q1)(j) == ListedTest(q2)(j) {
      assert SalaryMinOk(q1, j) && SalaryMinOk(q2, j);
      assert q1.title == q2.title && q1.skills == q2.skills && q1.location == q2.location;
      assert q1.salaryMax == q2.salaryMax && q1.isRemote == q2.isRemote && q1.visa == q2.visa;
    }
    Seqs.FilterExt(jobs, ListedTest(q1), ListedTest(q2));
    var q3, q4 := q.(salaryMax := Some(s)), q.(salaryMax := None);
    forall j ensures ListedTest(q3)(j) == ListedTest(q4)(j) {
      assert SalaryMaxOk(q3, j) && SalaryMaxOk(q4, j);
      assert q3.title == q4.title && q3.skills == q4.skills && q3.location == q4.location;
      assert q3.salaryMin == q4.salaryMin && q3.isRemote == q4.isRemote && q3.visa == q4.visa;
    }
    Seqs.FilterExt(jobs, ListedTest(q3), ListedTest(q4));
  }

  /** A flag value other than "1", "true" or "True" (for instance "false")
      leaves the listing unchanged. */
  lemma OtherFlagValuesIgnored(jobs: seq<Job>, q: Query, v: string)
    requires v !in {"1", "true", "True"}
    ensures Seqs.Filter(jobs, ListedTest(q.(isRemote := Some(v)))) == Seqs.Filter(jobs, ListedTest(q.(isRemote := None)))
    ensures Seqs.Filter(jobs, ListedTest(q.(visa := Some(v)))) == Seqs.Filter(jobs, ListedTest(q.(visa := None)))
  {
    assert !FlagOn(Some(v));
    var q1, q2 := q.(isRemote := Some(v)), q.(isRemote := None);
    forall j ensures ListedTest(q1)(j) == ListedTest(q2)(j) {
      assert RemoteOk(q1, j) && RemoteOk(q2, j);
      assert q1.title == q2.title && q1.skills == q2.skills && q1.location == q2.location;
      assert q1.salaryMin == q2.salaryMin && q1.salaryMax == q2.salaryMax && q1.visa == q2.visa;
    }
    Seqs.FilterExt(jobs, ListedTest(q1), ListedTest(q2));
    var q3, q4 := q.(visa := Some(v)), q.(visa := None);
    forall j ensures ListedTest(q3)(j) == ListedTest(q4)(j) {
      assert VisaOk(q3, j) && VisaOk(q4, j);
      assert q3.title == q4.title && q3.skills == q4.skills && q3.location == q4.location;
      assert q3.salaryMin == q4.salaryMin && q3.salaryMax == q4.salaryMax && q3.isRemote == q4.isRemote;
    }
    Seqs.FilterExt(jobs, ListedTest(q3), ListedTest(q4));
  }

  /** With an integer minimum, a job passes iff one of its salary bounds
      reaches it; a job with neither bound never does. */
  lemma SalaryMinRule(q: Query, j: Job, s: int)
    requires q.salaryMin.Some? && Text.ParseInt(q.salaryMin.value) == Some(s)
    ensures SalaryMinOk(q, j) <==>
      (j.salaryMax.Some? && j.salaryMax.value >= s) || (j.salaryMin.Some? && j.salaryMin.value >= s)
    ensures j.salaryMin.None? && j.salaryMax.None? ==> !SalaryMinOk(q, j)
  {
    Text.ParseIntEmpty();
    assert Given(q.salaryMin);
  }

  // ---------------------------------------------------------------------------
  // Editing

  /** A signed-in user. */
  datatype User = User(id: nat, isStaff: bool)

  /** The editable fields, as cleaned by the job form. */
  datatype JobFields = JobFields(
    title: string, description: string, skills: string, location: string,
    salaryMin: Option<nat>, salaryMax: Option<nat>,
    isRemote: bool, visaSponsorship: bool, isActive: bool)

  /** The request: a GET, or a POST whose form data is valid (`Some`) or not. */
  datatype EditRequest = Get | Post(form: Option<JobFields>)

  datatype EditOutcome = LoginRedirect | NotFound | RedirectToDetail(pk: nat) | ShowForm | Saved(pk: nat)

  datatype EditResult = EditResult(outcome: EditOutcome, jobs: map<nat, Job>)

  /** Only the poster and staff may edit. */
  predicate MayEdit(u: User, job: Job) {
    job.postedBy == Some(u.id) || u.isStaff
  }

  function ApplyFields(job: Job, f: JobFields): Job {
    job.(title := f.title, description := f.description, skills := f.skills, location := f.location,
         salaryMin := f.salaryMin, salaryMax := f.salaryMax, isRemote := f.isRemote,
         visaSponsorship := f.visaSponsorship, isActive := f.isActive)
  }

  /** `job_edit`: sign-in required, 404 for an unknown key, a redirect to the
      detail page for anyone who is neither the poster nor staff, and the
      form otherwise; a valid POST saves the fields. */
  function JobEdit(jobs: map<nat, Job>, pk: nat, user: Option<User>, request: EditRequest): (r: EditResult)
    ensures r.outcome.Saved? <==> user.Some? && pk in jobs && MayEdit(user.value, jobs[pk]) && request.Post? && request.form.Some?
    ensures r.outcome.Saved? ==> r.jobs == jobs[pk := ApplyFields(jobs[pk], request.form.value)]
    ensures !r.outcome.Saved? ==> r.jobs == jobs
  {
    if user.None? then EditResult(LoginRedirect, jobs)
    else if pk !in jobs then EditResult(NotFound, jobs)
    else if !MayEdit(user.value, jobs[pk]) then EditResult(RedirectToDetail(pk), jobs)
    else match request
      case Post(Some(f)) => EditResult(Saved(pk), jobs[pk := ApplyFields(jobs[pk], f)])
      case _ => EditResult(ShowForm, jobs)
  }

  /** A signed-in user who is neither the poster nor staff is sent to the
      detail page, whatever the request, and nothing changes; a job whose
      poster was deleted can be edited by staff only. */
  lemma OutsidersAreRedirected(jobs: map<nat, Job>, pk: nat, u: User, request: EditRequest)
    requires pk in jobs
    ensures JobEdit(jobs, pk, Some(u), request).outcome == RedirectToDetail(pk) <==> !MayEdit(u, jobs[pk])
    ensures JobEdit(jobs, pk, Some(u), request).outcome.RedirectToDetail? ==> JobEdit(jobs, pk, Some(u), request).jobs == jobs
    ensures jobs[pk].postedBy.None? ==> (MayEdit(u, jobs[pk]) <==> u.isStaff)
  {
  }
}
