# SOKKA recruiting platform — a Dafny model of its core

SOKKA is a Django recruiting platform. Job seekers keep profiles with skills, education and work
history. Recruiters search candidates, browse and edit job postings, and run a kanban hiring
pipeline. This project models the core of that system and proves properties of the model. It covers:

- **Candidate search** (`candidate_models.dfy`, `candidate_search.dfy`, `search_endpoint.dfy`):
  - the candidate records and the three-stage filter (skills, project terms, radius);
  - the weighted relevance score;
  - the search endpoint, which reads the JSON body with its defaults, scores every filtered
    candidate, sorts by score with Python's stable descending sort, and returns one page of ten.
- **Job listing** (`jobs_listing.dfy`): the public job list narrowed by its seven query-string
  parameters, one per step as the view does it, and the access rule of the job edit view.
- **Template filters** (`job_extras.dfy`): `split` and `trim`.
- **Profiles** (`profiles.dfy`, `profile_forms.dfy`):
  - the owner's name and e-mail, taken from a linked account or, for anonymous profiles, from the
    profile's own fields;
  - `__str__`, proficiency levels and the skill catalogue;
  - the date rules of education and work history, in the records and in the forms;
  - the profile form's save and the skill form's save.
- **Kanban pipeline** (`kanban.dfy`, `jobs_signals.dfy`):
  - a `Pipeline` class holds the stage, board, card and like tables;
  - its methods are the views: ensure the stages, show the board, like and unlike, move a card,
    update notes;
  - `ProfileCard.move_to_stage` and `PipelineStage.save` are modelled;
  - so is the handler that puts a card on the poster's board when a job application is created.

Shared pieces:

- `wrappers.dfy`: `Option` and `Result`.
- `seqs.dfy`: an order-keeping filter over sequences. A queryset is modelled as a sequence in
  primary-key order.
- `text.dfy`: Python's string operations as the core uses them: `lower`, `in`, `strip`, `split`,
  `join`, and `int()` on strings.

Model decisions:

- **Distances.** The great-circle distance is the parameter `dist`. Lemmas that need it require
  only that it is non-negative.
- **External systems.**
  - The database is the class fields and sequences.
  - A request's user is a plain key parameter.
  - A JSON body is the `Value` datatype, or `None` when it does not parse.
- **Radius and order.** The radius stage runs for any truthy radius, so a negative radius keeps
  no one (`CandidateSearch.NegativeRadiusKeepsNoOne`). The filtered pool keeps primary-key order.

## Model

| member | source | states |
|---|---|---|
| CandidateModels.LocationDisplay | backend/candidates/models.py:9-10 | the shown location has no leading or trailing comma or space and is no longer than "city, country" |
| CandidateModels.LocationDisplayBoth | backend/candidates/models.py:9-10 | a city and a country without outer commas or spaces show as exactly "city, country" |
| CandidateModels.LocationDisplayNoCity | backend/candidates/models.py:9-10 | an empty city shows the country stripped of commas and spaces; both empty show "" |
| CandidateSearch.FilterCandidates | backend/candidates/search.py:29-59 | the loop-based filter (the radius stage collects keys, then keeps those keys) returns exactly the pool narrowed by the active stages in order |
| CandidateSearch.KeysInRadius | backend/candidates/search.py:49-56 | the collected keys are the keys, in order, of the candidates with a location within the radius; candidates without a location are skipped |
| CandidateSearch.KeepByKey | backend/candidates/search.py:57 | with distinct primary keys, keeping the candidates whose key was collected is keeping the candidates that pass the test |
| CandidateSearch.FilterMembership | backend/candidates/search.py:32-57 | a candidate survives iff it is in the pool and passes every active stage: all or any requested skill (case-insensitive name, level at least the minimum), some project term in a title or tags, within the radius |
| CandidateSearch.FilterNarrows | backend/candidates/search.py:29-59 | the result is a sub-multiset of the pool and no longer than it |
| CandidateSearch.FilterUnconstrained | backend/candidates/search.py:29-59 | with no skills, no project terms and no active radius the whole pool comes back in order |
| CandidateSearch.NegativeRadiusKeepsNoOne | backend/candidates/search.py:49-57 | a negative radius is truthy, so the radius stage runs, and it keeps no candidate |
| CandidateSearch.AllSkillsAsWrittenRejects | backend/candidates/search.py:34-37 | as written, all-skills mode asks one skill link to match every name, so two names that differ ignoring case reject every candidate |
| CandidateSearch.AllSkillsCounterexample | backend/candidates/search.py:34-37 | a candidate with Python at 4 and Django at 3, searched for both at level 3, meets the intended all-skills condition and fails the query as written |
| CandidateSearch.FirstNamed | backend/candidates/search.py:66 | the found link is a link of the candidate whose skill name equals the requested name ignoring case; none is found only when no link has that name |
| CandidateSearch.FirstNamedIsFirst | backend/candidates/search.py:66 | the found link is the first such link, as `.first()` returns it: it sits at some index and no earlier link has the name (names are unique only with their case) |
| CandidateSearch.HitCount | backend/candidates/search.py:74-80 | the number of hits never exceeds the number of project terms |
| CandidateSearch.ScoreCandidate | backend/candidates/search.py:61-88 | the two accumulation loops compute 0.6 × skill score + 0.3 × distance score + 0.1 × project score |
| CandidateSearch.SkillScoreLoop | backend/candidates/search.py:62-69 | the loop over the requested skills sums level / 5 for each skill whose first case-insensitive match reaches the minimum, and divides by the number of skills |
| CandidateSearch.ProjectScoreLoop | backend/candidates/search.py:71-81 | the loop counts the terms whose lower-cased form occurs in the lower-cased titles and tags, and divides by the number of terms |
| CandidateSearch.SkillCreditSumBounds | backend/candidates/search.py:64-68 | with levels in 0..5 the summed skill credit lies between 0 and the number of requested skills |
| CandidateSearch.SkillScoreBounds | backend/candidates/search.py:62-69 | with levels in 0..5 the skill score lies in [0, 1] |
| CandidateSearch.ProjectScoreBounds | backend/candidates/search.py:71-81 | the project score lies in [0, 1] |
| CandidateSearch.DistanceScoreBounds | backend/candidates/search.py:83-86 | with a non-negative distance and radius the distance score lies in [0, 1] |
| CandidateSearch.ScoreInUnitInterval | backend/candidates/search.py:61-88 | with levels in 0..5, a non-negative distance and a radius that is not negative, the score lies in [0, 1] |
| CandidateSearch.ScoreUnconstrained | backend/candidates/search.py:61-88 | with no skills, no project terms and no active radius every score is 0 |
| CandidateSearch.ScorePrefersStrongerSkills | backend/candidates/search.py:61-88 | of two candidates alike in distance and projects, the one that earns at least as much credit on every requested skill and more on one scores strictly higher |
| CandidateSearch.ProjectMatchIsHit | backend/candidates/search.py:72-80 | a term the project stage matches in a title or tags, lower-cased, occurs in the lower-cased haystack the score searches |
| CandidateSearch.ProjectStageImpliesProjectScore | backend/candidates/search.py:43-81 | every candidate the project stage keeps gets a positive project score |
| SearchEndpoint.Get | SOKKA/backend/candidates/views.py:15-22 | `get` finds nothing exactly when no entry has the key, and otherwise returns the value of an entry with that key |
| SearchEndpoint.GetIsLast | SOKKA/backend/candidates/views.py:15-22 | a key given several times in the body reads as its last value |
| SearchEndpoint.DictKeys | SOKKA/backend/candidates/views.py:15 | the keys of the decoded dictionary are exactly the object's keys, each once |
| SearchEndpoint.DictKeysOfDistinct | SOKKA/backend/candidates/views.py:15 | an object without repeated keys gives its keys in document order |
| SearchEndpoint.IntOf | SOKKA/backend/candidates/views.py:18 | `int` keeps integers, and null, lists and objects do not convert |
| SearchEndpoint.FloatOf | SOKKA/backend/candidates/views.py:29-31 | `float` keeps floats, widens integers, and null, lists and objects do not convert |
| SearchEndpoint.StrList | SOKKA/backend/candidates/views.py:25-28 | a list gives the `str()` of each item in order, a string its characters one by one, an object the keys of its dictionary: every key of the object, each exactly once; null, false, 0 and "" give the empty list, and a truthy scalar is not iterable |
| SearchEndpoint.BuildParams | SOKKA/backend/candidates/views.py:14-32 | all-skills mode is the truthiness of `requireAllSkills`, default false |
| SearchEndpoint.BuildParamsDefaults | SOKKA/backend/candidates/views.py:14-32 | a body that is not an object, or that names none of the fields, gives no skills, no projects, any-of mode, level 3 and no origin |
| SearchEndpoint.BuildParamsFields | SOKKA/backend/candidates/views.py:15-28 | the level comes from `int` with default 3, skills and projects from the list reading, and a level that does not convert is the error reported |
| SearchEndpoint.ParamsWithLevel | SOKKA/backend/candidates/views.py:15-31 | once the level converts, a successful reading carries that level, the truthiness of `requireAllSkills`, and the skill and project lists read from their own keys |
| SearchEndpoint.FalsySkillsAreEmpty | SOKKA/backend/candidates/views.py:15 | null, an empty list and an empty string all mean no skills |
| SearchEndpoint.RequireAllIsTruthiness | SOKKA/backend/candidates/views.py:17 | the string "false" turns all-of mode on |
| SearchEndpoint.DistanceKm | SOKKA/backend/candidates/views.py:39-41 | a distance is reported exactly when both origin coordinates and the candidate's location exist, whatever the radius, and it is the distance to the origin |
| SearchEndpoint.Enriched | SOKKA/backend/candidates/views.py:36-42 | one entry per filtered candidate, in filter order, carrying its own score and distance |
| SearchEndpoint.EnrichAll | SOKKA/backend/candidates/views.py:36-42 | the loop over the filtered candidates builds exactly their enriched entries, in order |
| SearchEndpoint.SortByScoreDescSorted | SOKKA/backend/candidates/views.py:44 | the sort yields a permutation of its input in non-increasing score order |
| SearchEndpoint.SortByScoreDescStable | SOKKA/backend/candidates/views.py:44 | for every score, the entries with that score come out in the order they went in |
| SearchEndpoint.NumPages | SOKKA/backend/candidates/views.py:47 | at least one page, exactly enough pages of ten to hold every entry, and with entries no page is left empty |
| SearchEndpoint.ClampPage | SOKKA/backend/candidates/views.py:48 | a number between 1 and the page count is kept; any other number gives the last page |
| SearchEndpoint.PageItems | SOKKA/backend/candidates/views.py:48-49 | a page holds at most ten entries |
| SearchEndpoint.PagesCoverRanking | SOKKA/backend/candidates/views.py:47-49 | read in order, the pages hold every ranked entry exactly once |
| SearchEndpoint.Respond | SOKKA/backend/candidates/views.py:50-57 | the count is the number of ranked entries and the page lies between 1 and the page count |
| SearchEndpoint.SearchCandidates | SOKKA/backend/candidates/views.py:13-58 | a field that does not convert is an error naming it; otherwise the response is the requested page of the filtered pool, scored in a loop and ranked |
| SearchEndpoint.RankedIsPermutation | SOKKA/backend/candidates/views.py:34-44 | the ranking holds every filtered candidate exactly once, each with its own score and distance |
| SearchEndpoint.RankedIsSortedAndStable | SOKKA/backend/candidates/views.py:44 | the ranking is in non-increasing score order and equal scores keep filter order |
| SearchEndpoint.ResponseCounts | SOKKA/backend/candidates/views.py:47-55 | the reported count is the number of filtered candidates and a page holds at most ten |
| Text.ParseIntToString | jobs/views.py:29 | `int(str(n)) == n` for every integer |
| Text.ParseIntEmpty | jobs/views.py:29 | `int("")` does not convert |
| Text.Split | jobs/templatetags/job_extras.py:12 | `str.split` with a non-empty separator gives one more piece than there are separators, and no piece holds the separator |
| Text.JoinSplit | jobs/templatetags/job_extras.py:12 | joining the pieces of a split with the separator gives the string back |
| Text.StripOf | jobs/templatetags/job_extras.py:22 | `strip` returns `r` for any string made of `r`, trimmed, between runs of stripped characters |
| Text.StripIdempotent | jobs/templatetags/job_extras.py:22 | stripping twice is stripping once |
| Text.ContainsLower | backend/candidates/search.py:80 | a substring stays a substring after lower-casing both strings |
| JobsListing.TrimmedNonBlank | jobs/views.py:23 | no skill token is empty |
| JobsListing.TokensAreTrimmed | jobs/views.py:23 | every skill token is non-blank and has no outer whitespace |
| JobsListing.FilterBySkills | jobs/views.py:21-24 | narrowing by one token at a time keeps exactly the jobs whose skills text contains every token, ignoring case |
| JobsListing.ByTitle | jobs/views.py:19-20 | a non-empty title keeps the jobs whose title contains it, ignoring case; otherwise nothing changes |
| JobsListing.BySkills | jobs/views.py:21-24 | a non-empty skills parameter applies the token-by-token filter; otherwise nothing changes |
| JobsListing.ByLocation | jobs/views.py:25-26 | a non-empty location keeps the jobs whose location contains it, ignoring case |
| JobsListing.BySalaryMin | jobs/views.py:27-32 | an integer minimum keeps the jobs whose maximum or minimum salary reaches it; a non-integer is ignored |
| JobsListing.BySalaryMax | jobs/views.py:33-38 | an integer maximum keeps the jobs whose minimum or maximum salary is at most it; a non-integer is ignored |
| JobsListing.ByRemote | jobs/views.py:39-40 | "1", "true" or "True" keeps the remote jobs; any other value is ignored |
| JobsListing.ByVisa | jobs/views.py:41-42 | "1", "true" or "True" keeps the jobs that sponsor visas; any other value is ignored |
| JobsListing.JobList | jobs/views.py:8-45 | the view's step-by-step narrowing of the active jobs lists exactly the jobs that are active and pass every filter, in listing order |
| JobsListing.AllStagesAreListed | jobs/views.py:10-42 | passing the seven steps in turn is being listed |
| JobsListing.ListedOnlyActive | jobs/views.py:10-42 | a job is listed iff it is in the table, active and passes every supplied filter |
| JobsListing.NoQueryListsActive | jobs/views.py:8-45 | with no parameters the listing is exactly the active jobs |
| JobsListing.MoreParametersNarrow | jobs/views.py:19-42 | adding parameters only narrows: the listing for more parameters is the listing for fewer, filtered further |
| JobsListing.NonIntegerSalaryIgnored | jobs/views.py:27-38 | a salary parameter that is not an integer leaves the listing unchanged |
| JobsListing.OtherFlagValuesIgnored | jobs/views.py:39-42 | a flag value other than "1", "true" or "True", for instance "false", leaves the listing unchanged |
| JobsListing.SalaryMinRule | jobs/views.py:27-32 | with an integer minimum a job passes iff one of its salary bounds reaches it, so a job with neither bound never passes |
| JobsListing.JobEdit | jobs/views.py:67-79 | the fields are saved iff a signed-in poster or staff member posts valid form data for an existing job; otherwise the jobs are unchanged |
| JobsListing.OutsidersAreRedirected | jobs/views.py:70-71 | a signed-in user who is neither poster nor staff goes to the detail page, whatever the request, and nothing changes; a job without a poster is editable by staff only |
| JobExtras.SplitFilter | jobs/templatetags/job_extras.py:7-14 | for a string and a non-empty separator, the pieces joined by the separator give the string back, there is one more piece than separators and no piece holds the separator; `None`, non-strings and an empty separator give [] |
| JobExtras.SplitEmpty | jobs/templatetags/job_extras.py:7-12 | splitting "" gives one empty piece |
| JobExtras.SplitPieces | jobs/templatetags/job_extras.py:12 | every piece occurs in the value, and there are several pieces iff the value holds the separator |
| JobExtras.TrimFilter | jobs/templatetags/job_extras.py:17-22 | the result has no outer whitespace and is no longer than the text, and `None` gives "" |
| JobExtras.TrimIdempotent | jobs/templatetags/job_extras.py:17-22 | trimming a trimmed value changes nothing |
| JobExtras.TrimRemovesOuterWhitespace | jobs/templatetags/job_extras.py:22 | the result is the slice of the text between its leading and its trailing whitespace |
| JobExtras.TrimKeepsTrimmed | jobs/templatetags/job_extras.py:22 | text without outer whitespace comes back unchanged |
| Profiles.FullName | SOKKA/profiles/models.py:37 | the full name has no outer whitespace and is no longer than "first last" |
| Profiles.FullNameOfTrimmedNames | SOKKA/profiles/models.py:37 | non-empty names without outer whitespace are joined by one space |
| Profiles.FullNameWithoutFirst | SOKKA/profiles/models.py:37 | without a first name the full name is the stripped last name; without both it is "" |
| Profiles.User.GetFullName | SOKKA/profiles/models.py:34-35 | the account's full name has no outer whitespace |
| Profiles.Profile.GetFullName | SOKKA/profiles/models.py:32-37 | a linked profile gives the account's full name, an anonymous one its own names joined and stripped |
| Profiles.Profile.GetEmail | SOKKA/profiles/models.py:39-44 | a linked profile gives the account's e-mail, an anonymous one its own |
| Profiles.Profile.Display | SOKKA/profiles/models.py:26-30 | with an account, the account's full name, " - " and the headline; without one, the first and last name joined by a space, unstripped, then " - " and the headline |
| Profiles.DisplayAndFullName | SOKKA/profiles/models.py:26-37 | a linked profile displays its full name and headline; an anonymous profile without names displays "  - headline" although its full name is "" |
| Profiles.DisplayNameStripped | SOKKA/profiles/models.py:26-37 | for every profile, the name part of `__str__` stripped of outer whitespace is `get_full_name` |
| Profiles.ProficiencyValue | SOKKA/profiles/models.py:62-71 | every proficiency has a non-empty stored value |
| Profiles.ParseProficiency | SOKKA/profiles/models.py:62-71 | a stored value is read back only as the choice that stores it |
| Profiles.ProficiencyRoundTrip | SOKKA/profiles/models.py:62-71 | every choice is read back from its stored value |
| Profiles.SingleProficiency | SOKKA/profiles/models.py:73-74 | under the (profile, skill) uniqueness constraint a profile has one link, so one level, per skill |
| Profiles.ProfileSkillTable.Insert | SOKKA/profiles/models.py:73-74 | a link is appended iff its (profile, skill) pair is new, otherwise the constraint refuses it and nothing changes; at most one link per pair is kept |
| Profiles.ProfileSkillDisplayAsWritten | SOKKA/profiles/models.py:76-77 | the display as written exists iff the profile has an account |
| Profiles.AnonymousSkillDisplayRaises | SOKKA/profiles/models.py:76-77 | the skill of an anonymous profile cannot be displayed as written |
| Profiles.ProfileSkillDisplay | SOKKA/profiles/models.py:76-77 | the display through the profile's own full name exists for every profile and agrees with the as-written one wherever that exists |
| Profiles.SkillCatalogue.GetOrCreate | profiles/forms.py:109 | the key of the skill with this exact name; a new skill is appended iff the name was absent, and names stay unique |
| Profiles.SameNameSameSkill | SOKKA/profiles/models.py:49 | in a catalogue with unique names, a name has one key |
| Profiles.EducationClean | SOKKA/profiles/models.py:95-99 | accepted iff the end is not before the start and a current education has no end; the date error wins when both rules fail |
| Profiles.WorkExperienceClean | SOKKA/profiles/models.py:119-123 | the same two rules with the working message, date order first |
| Profiles.EqualDatesAccepted | SOKKA/profiles/models.py:95-123 | a period that ends the day it starts, or has no end, passes both checks |
| ProfileForms.EducationFormClean | profiles/forms.py:140-148 | the form rejects only a current education with an end date, and otherwise returns the data unchanged |
| ProfileForms.WorkExperienceFormClean | profiles/forms.py:172-184 | the form rejects a current position with an end date first, then an end before the start, and otherwise returns the data unchanged |
| ProfileForms.WorkFormAgreesWithModel | profiles/forms.py:172-184 | the work form accepts exactly what the record's clean accepts; when both rules fail the form reports the current rule and the record the date order |
| ProfileForms.EducationFormMissesDateOrder | profiles/forms.py:140-148 | an education ending before it starts passes the form's clean and fails the record's |
| ProfileForms.EducationFormWeakerThanModel | profiles/forms.py:140-148 | what the record's clean accepts the form's clean accepts, and they differ only on the date order |
| ProfileForms.SaveProfileForm | profiles/forms.py:71-89 | the profile's own columns come from the form; with an account the profile is linked and the account's names and e-mail are written only when committing; without one they go to the profile; afterwards the profile reports the submitted e-mail and full name |
| ProfileForms.SaveProfileSkillForm | profiles/forms.py:104-114 | the catalogue skill named by the stripped input is found or created in every case; the link is saved iff committing with a profile set and the profile has no link to that skill yet, and then exactly that link is appended; otherwise the link table is unchanged |
| ProfileForms.PaddedSkillName | profiles/forms.py:109 | whitespace padding makes no difference: " Python " and "Python" name the same skill |
| Kanban.CanonicalOrder | kanban/models.py:29-36 | a stage name's place in the board order, 0 for other names |
| Kanban.SavedOrder | kanban/models.py:26-37 | an order of 0 becomes the name's place in the board order; any other order is kept |
| Kanban.SavedOrderIdempotent | kanban/models.py:26-37 | saving twice gives the order saving once gives |
| Kanban.ConfiguredOrders | kanban/views.py:19-25 | each configured stage's order survives the save and is its place in the board order |
| Kanban.StageNamed | kanban/views.py:93 | the found stage has the name; nothing is found only when no stage has it |
| Kanban.BoardOf | kanban/views.py:42 | the found board belongs to the recruiter; nothing is found only when no board does |
| Kanban.StagesInOrder | kanban/views.py:45-55 | the shown stages exist and have listed names; with every name present they come exactly in the listed order |
| Kanban.BoardStages | kanban/views.py:45-55 | once all five stages exist the board shows them in the fixed order profile_interest, resume_review, interview, hired, rejected |
| Kanban.BoardStagesIgnoreStoredOrder | kanban/views.py:45-55 | stored orders and colours play no part in the board order |
| Kanban.NextPositionUnique | kanban/models.py:80-84 | the next position of a stage is determined by its cards |
| Kanban.NextPositionFits | kanban/models.py:80-84 | the next position fits the column iff every card of the stage sits below the largest storable position |
| Kanban.CardsIn | kanban/views.py:58-63 | a column holds exactly the board's cards in that stage |
| Kanban.Pipeline.GetOrCreateStage | kanban/views.py:28-31 | the stage with the name, or a new stage saved with the defaults; existing stages are never changed |
| Kanban.Pipeline.EnsurePipelineStages | kanban/views.py:17-31 | afterwards all five stages exist; existing stages keep their order and colour, new ones get their board place, and nothing changes when all five existed |
| Kanban.Pipeline.GetOrCreateBoard | kanban/views.py:42 | the recruiter's board, or a new one with the given name; every other recruiter's board stays where it was |
| Kanban.Pipeline.ShowBoard | kanban/views.py:36-70 | the stages grow only by configured ones (none when all five existed); the recruiter's board is found or appended with the default name; the five stages are shown in the fixed order, each column listing exactly the board's cards in that stage, each once, by position; cards, card ids and likes are unchanged |
| Kanban.Pipeline.Columns | kanban/views.py:58-63 | one column per shown stage, listing exactly the board's cards in that stage, each once, by non-decreasing position |
| Kanban.Pipeline.Column | kanban/models.py:70-71 | the cards of one board and stage, each once, ordered by position as the card table's ordering lists them within one stage |
| Kanban.Pipeline.InsertByPosition | kanban/models.py:70-71 | inserting a card into a column ordered by position keeps it ordered, with the card added and no other change |
| Kanban.InsertKeepsOrder | kanban/models.py:70-71 | a card placed after the cards with no greater position and before the rest keeps the column ordered by position with distinct cards |
| Kanban.Pipeline.LikeProfile | kanban/views.py:75-106 | the stages grow only by configured ones (none when all five existed); unknown profile is 404, a repeated like is already_liked and changes no card or board; a new like is recorded and adds one card in the first stage at position 0 on the recruiter's board |
| Kanban.Pipeline.RecordLike | kanban/views.py:83-102 | records the like, gets or creates the board and adds the card, keeping the tables valid |
| Kanban.Pipeline.AddCard | kanban/views.py:97-102 | the card goes in under a fresh key and nothing else changes |
| Kanban.Pipeline.UnlikeProfile | kanban/views.py:111-125 | unknown profile is 404 and a missing like is not_liked; otherwise the like and exactly the profile's cards on the recruiter's board are deleted |
| Kanban.Pipeline.NextPosition | kanban/models.py:78-84 | one more than the highest position in the board's stage, or 0 for an empty stage |
| Kanban.Pipeline.MoveToStage | kanban/models.py:76-92 | the move is saved iff the position, given or next, fits the column (0 up to `maxPosition`); then only this card changes, its stage and its position, and the result says whether the stage changed; a failed save changes nothing |
| Kanban.Pipeline.MoveCard | kanban/views.py:131-157 | OPTIONS is 200 and any method other than POST or OPTIONS is 405, neither changing anything; a POST is 200 iff the body parses, the card is on the requester's board, the stage exists and the position can be stored; an absent position means 0 and an explicit null the next position; a 400 changes nothing |
| Kanban.Pipeline.UpdateCardNotes | kanban/views.py:162-184 | a method other than POST is 405; 200 iff the body parses, the notes are not null and the card is on the requester's board, and then only that card's notes change (absent notes mean ""); a 400 changes nothing |
| Kanban.Pipeline.HasCardFor | kanban/models.py:58-63 | true iff some card is linked to the application |
| JobSignals.ApplicationNotes | jobs/signals.py:30 | the notes are "Applied for: ", the job title, "\nApplication Date: " and the application time, in that order |
| JobSignals.CreateKanbanCard | jobs/signals.py:8-30 | a later save does nothing; on creation a card is added iff the job has a poster, the first stage exists, the applicant has a profile and the application has no card yet, on the poster's board (created as "Hiring Pipeline" if absent), in the first stage at position 0, linked to the application; any failure leaves every table unchanged |

## Left out

- The great-circle distance is a parameter. Floating-point rounding is not modelled: scores and
  distances are exact reals.
- `float()` of a numeric string and `str()` of floats, lists and objects are parameters of the
  endpoint (`parseFloat`, `repr`).
- The serializer's output fields are not modelled. A page holds scored records.
  SOKKA/backend/candidates/serializers.py is not part of this model.
- Text.Lower: folds only the ASCII letters A-Z. Python's `lower()` and the database's
  case-insensitive lookups fold other letters too.
- Text.ParseInt: accepts ASCII digits only. Python's `int()` also accepts other Unicode decimal
  digits.
- CandidateSearch.FilterCandidates: requires distinct primary keys in the pool. A table gives
  that; the radius stage keeps candidates by key.
- Queries are modelled as order-keeping filters over sequences. SQL, joins, `distinct()` and
  `select_related`/`prefetch_related` are not modelled separately.
- Sign-in and role decorators, CSRF exemption, template rendering and response messages are not
  modelled. Views take the requester's key and return an outcome or a status code.
- Timestamps (`created_at`, `updated_at`, `liked_at`) are not modelled, nor the orderings built
  on them, such as boards by most recent update.
- Kanban.Pipeline.MoveToStage: the touch of linked applications when the stage changes
  (kanban/models.py:91-96) is only reported as `stageChanged`. The application model is not part
  of this model.
- Kanban.Pipeline.MoveCard: a position in the JSON body that is a string or a float is not
  modelled. The body has an absent, null or integer position.
- Kanban.Pipeline: the largest position the card table stores is the parameter `maxPosition`.
  Django keeps a `PositiveIntegerField` safe up to 2147483647 on every database; some databases
  store more. The database is not part of this model.
- Integer width: salaries, skill levels, page numbers and keys are unbounded integers. The
  database's integer columns and their overflow errors are not modelled, except the card position
  bound above.
- Kanban.Pipeline.UnlikeProfile: requires the tables to be valid, in which a recruiter who has liked
  a profile has a board. The source would fail with a server error on a like without a board.
- The post-save handler on cards (kanban/signals.py) is not modelled. The status update it calls
  is not part of this model.
- `transaction.atomic` in the application handler is modelled as all-or-nothing. The handler
  checks every failure cause before writing.
- JobSignals.CreateKanbanCard: the application time is the text `str()` gives for it. Date
  formatting is not modelled.
- The profile form's initial values (profiles/forms.py:61-69) are not modelled. The uploaded
  profile picture is not modelled either.
- Only the database save of the profile and the account is left out. SaveProfileForm updates the
  objects in place whatever `commit` is, as the source does before `save()`.
- Profiles.User.GetFullName: follows Django's `get_full_name` (first and last name joined by a
  space, then stripped). Django itself is not part of this model.
- JobsListing.JobEdit: the job form's field validation is not modelled. The request carries
  either cleaned fields or an invalid form.

## Findings

| source | as written | input that shows it | evidently intended | confidence | as-written member | corrected member |
|---|---|---|---|---|---|---|
| backend/candidates/search.py:34-37 | all-skills mode puts every per-skill condition in one `filter()` call, so all of them must hold for the same skill link | a candidate with Python at level 4 and Django at level 3, searched for ["Python", "Django"] at level 3 with requireAllSkills | each requested skill is matched by a link of its own, so this candidate is found | not executed | CandidateSearch.AllSkillsCounterexample | CandidateSearch.FilterMembership |
| SOKKA/profiles/models.py:76-77 | `ProfileSkill.__str__` reads the name through `profile.user`, which is null for an anonymous profile, so it raises | a skill of a profile created without an account | the owner's name through `profile.get_full_name()`, which handles both kinds of profile | not executed | Profiles.AnonymousSkillDisplayRaises | Profiles.ProfileSkillDisplay |
