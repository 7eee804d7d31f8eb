/** The post-save handler of job applications: a new application puts a card
    for the applicant's profile on the job poster's board. */
module JobSignals {
  import opened Wrappers
  import opened Kanban

  /** What the handler reads of a saved application: its key, the job's
      title and poster (a job's poster may be unset), the applicant's
      profile (an account may have none) and the application time as text. */
  datatype Application = Application(
    id: nat, jobTitle: string, poster: Option<nat>, applicantProfile: Option<nat>, appliedAt: string)

  /** No card for a later save, a new card, or an error that rolls the whole
      handler back. */
  datatype SignalOutcome = NotCreated | CardCreated(cardId: nat) | Failed

  /** The name a board created by the handler gets. */
  const SignalBoardName := "Hiring Pipeline"

  /** The notes of an application's card. */
  function ApplicationNotes(app: Application): (r: string)
    ensures |r| == 13 + |app.jobTitle| + 19 + |app.appliedAt|
    ensures r[..13] == "Applied for: " && r[13..13 + |app.jobTitle|] == app.jobTitle
    ensures r[13 + |app.jobTitle|..13 + |app.jobTitle| + 19] == "\nApplication Date: "
    ensures r[|r| - |app.appliedAt|..] == app.appliedAt
  {
    "Applied for: " + app.jobTitle + "\nApplication Date: " + app.appliedAt
  }

  /** Why the handler fails, in the order it meets the problems: a job
      without a poster cannot own a board, the first stage must exist, the
      applicant must have a profile, and an application has at most one
      card. */
  predicate SignalFails(stages: seq<Stage>, profiles: set<nat>, app: Application, hasCard: bool) {
    || app.poster.None?
    || StageNamed(stages, FirstStage).None?
    || app.applicantProfile.None? || app.applicantProfile.value !in profiles
    || hasCard
  }

  /** `create_kanban_card`: on a later save nothing happens; on creation,
      inside one transaction, the poster's board is got or created, and a
      card for the applicant's profile, linked to this application, goes in
      the first stage at position 0 with the application's notes. Any error
      undoes the whole transaction. */
  method CreateKanbanCard(p: Pipeline, app: Application, created: bool) returns (outcome: SignalOutcome)
    requires p.Valid()
    modifies p
    ensures p.Valid()
    ensures !created ==> outcome == NotCreated
    ensures outcome.CardCreated? <==>
      created && !SignalFails(old(p.stages), old(p.profiles), app, HasApplicationCard(old(p.cards), app.id))
    ensures !outcome.CardCreated? ==>
      && p.stages == old(p.stages) && p.boards == old(p.boards) && p.cards == old(p.cards)
      && p.nextCardId == old(p.nextCardId) && p.likes == old(p.likes) && p.profiles == old(p.profiles)
    ensures outcome.CardCreated? ==>
      && p.stages == old(p.stages) && p.likes == old(p.likes) && p.profiles == old(p.profiles)
      && outcome.cardId == old(p.nextCardId) && p.nextCardId == old(p.nextCardId) + 1
      && BoardOf(p.boards, app.poster.value).Some?
      && p.boards == (if BoardOf(old(p.boards), app.poster.value).Some? then old(p.boards)
                      else old(p.boards) + [Board(app.poster.value, SignalBoardName)])
      && p.cards == old(p.cards)[outcome.cardId := Card(BoardOf(p.boards, app.poster.value).value,
                                                        app.applicantProfile.value, Some(app.id),
                                                        StageNamed(p.stages, FirstStage).value, 0,
                                                        ApplicationNotes(app))]
    ensures outcome.CardCreated? ==> HasApplicationCard(p.cards, app.id)
  {
    if !created {
      return NotCreated;
    }
    var hasCard := p.HasCardFor(app.id);
    if SignalFails(p.stages, p.profiles, app, hasCard) {
      return Failed;
    }
    var b := p.GetOrCreateBoard(app.poster.value, SignalBoardName);
    var stage := StageNamed(p.stages, FirstStage).value;
    var id := p.AddCard(Card(b, app.applicantProfile.value, Some(app.id), stage, 0, ApplicationNotes(app)));
    forall like | like in p.likes ensures BoardOf(p.boards, like.0).Some? {
      assert BoardOf(old(p.boards), like.0).Some?;
    }
    assert p.cards[id].application == Some(app.id);
    outcome := CardCreated(id);
  }
}
