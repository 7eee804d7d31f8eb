/** The recruiters' hiring pipeline: the five stages, one board per recruiter,
    the profile cards on the boards and the recruiters' likes. */
module Kanban {
  import opened Wrappers

  /** A pipeline stage; its key is its index in the stage table. */
  datatype Stage = Stage(name: string, order: nat, color: string)

  /** A recruiter's board; its key is its index in the board table. */
  datatype Board = Board(recruiter: nat, name: string)

  /** A card: a profile on a board, in a stage at a position, possibly for a
      job application. */
  datatype Card = Card(board: nat, profile: nat, application: Option<nat>, stage: nat, position: nat, notes: string)

  /** The stage names in board order. */
  const StageNames: seq<string> := ["profile_interest", "resume_review", "interview", "hired", "rejected"]

  /** The colours the stages are created with, in the same order. */
  const StageColors: seq<string> := ["#667eea", "#43e97b", "#4facfe", "#38b2ac", "#fa709a"]

  const FirstStage := "profile_interest"
  const DefaultBoardName := "My Hiring Pipeline"

  /** The position of a stage name in the board order; 0 for other names. */
  function CanonicalOrder(name: string): (r: nat)
    ensures r < |StageNames|
    ensures name in StageNames ==> StageNames[r] == name
  {
    if name == "profile_interest" then 0
    else if name == "resume_review" then 1
    else if name == "interview" then 2
    else if name == "hired" then 3
    else if name == "rejected" then 4
    else 0
  }

  /** `PipelineStage.save`: an order of 0 is replaced by the name's position
      in the board order (0 for other names); any other order is kept. */
  function SavedOrder(name: string, order: nat): (r: nat)
    ensures order != 0 ==> r == order
    ensures order == 0 ==> r < |StageNames| && (name in StageNames ==> StageNames[r] == name)
  {
    if order == 0 then CanonicalOrder(name) else order
  }

  /** Saving twice gives the order saving once gives. */
  lemma SavedOrderIdempotent(name: string, order: nat)
    ensures SavedOrder(name, SavedOrder(name, order)) == SavedOrder(name, order)
  {
  }

  /** The orders the stage configuration asks for survive the save. */
  lemma ConfiguredOrders(i: nat)
    requires i < |StageNames|
    ensures SavedOrder(StageNames[i], i) == CanonicalOrder(StageNames[i]) == i
  {
  }

  /** The key of the first stage with this name. */
  function StageNamed(stages: seq<Stage>, name: string): (r: Option<nat>)
    ensures r.Some? ==> r.value < |stages| && stages[r.value].name == name
    ensures r.None? ==> forall k :: 0 <= k < |stages| ==> stages[k].name != name
  {
    if stages == [] then None
    else
      var found := StageNamed(stages[..|stages| - 1], name);
      if found.Some? then found
      else if stages[|stages| - 1].name == name then Some(|stages| - 1)
      else None
  }

  /** The key of the first board of this recruiter. The same first-index
      search as `StageNamed`, kept separate so that lemmas about one table
      never reason through a search parameter. */
  function BoardOf(boards: seq<Board>, recruiter: nat): (r: Option<nat>)
    ensures r.Some? ==> r.value < |boards| && boards[r.value].recruiter == recruiter
    ensures r.None? ==> forall k :: 0 <= k < |boards| ==> boards[k].recruiter != recruiter
  {
    if boards == [] then None
    else
      var found := BoardOf(boards[..|boards| - 1], recruiter);
      if found.Some? then found
      else if boards[|boards| - 1].recruiter == recruiter then Some(|boards| - 1)
      else None
  }

  /** The keys of the stages with the given names, in the order of the
      names; names without a stage are skipped. */
  function StagesInOrder(stages: seq<Stage>, names: seq<string>): (r: seq<nat>)
    ensures |r| <= |names|
    ensures forall i :: 0 <= i < |r| ==> r[i] < |stages| && stages[r[i]].name in names
    ensures AllNamed(stages, names) ==>
      |r| == |names| && forall i :: 0 <= i < |r| ==> stages[r[i]].name == names[i]
  {
    if names == [] then []
    else
      var rest := StagesInOrder(stages, names[1..]);
      match StageNamed(stages, names[0])
      case Some(k) => [k] + rest
      case None => rest
  }

  /** All five pipeline stages exist. */
  ghost predicate AllStagesExist(stages: seq<Stage>) {
    AllNamed(stages, StageNames)
  }

  /** Every name in `names` has a stage. */
  ghost predicate AllNamed(stages: seq<Stage>, names: seq<string>) {
    forall n :: n in names ==> StageNamed(stages, n).Some?
  }

  /** `after` is `before` followed by stages of the configuration, each with
      its place in the board order. */
  ghost predicate GrownByConfigured(before: seq<Stage>, after: seq<Stage>) {
    && |before| <= |after| && after[..|before|] == before
    && forall k :: |before| <= k < |after| ==>
         after[k].name in StageNames && after[k].order == CanonicalOrder(after[k].name)
  }

  /** Every recruiter who has liked a profile has a board. */
  ghost predicate LikesHaveBoards(likes: set<(nat, nat)>, boards: seq<Board>) {
    forall like :: like in likes ==> BoardOf(boards, like.0).Some?
  }

  /** The stages the board shows, in the fixed order profile_interest,
      resume_review, interview, hired, rejected. */
  function BoardStages(stages: seq<Stage>): (r: seq<nat>)
    ensures |r| <= |StageNames|
    ensures forall i :: 0 <= i < |r| ==> r[i] < |stages| && stages[r[i]].name in StageNames
    ensures AllStagesExist(stages) ==>
      |r| == |StageNames| && forall i :: 0 <= i < |r| ==> stages[r[i]].name == StageNames[i]
  {
    StagesInOrder(stages, StageNames)
  }

  /** Stored orders and colours play no part in the board order: tables with
      the same names show the same stages. */
  lemma {:induction false} BoardStagesIgnoreStoredOrder(stages: seq<Stage>, other: seq<Stage>)
    requires |stages| == |other|
    requires forall k :: 0 <= k < |stages| ==> stages[k].name == other[k].name
    ensures BoardStages(stages) == BoardStages(other)
  {
    forall n ensures StageNamed(stages, n) == StageNamed(other, n) {
      StageNamedByNames(stages, other, n);
    }
    StagesInOrderByNames(stages, other, StageNames);
  }

  lemma {:induction false} StageNamedByNames(stages: seq<Stage>, other: seq<Stage>, n: string)
    requires |stages| == |other|
    requires forall k :: 0 <= k < |stages| ==> stages[k].name == other[k].name
    ensures StageNamed(stages, n) == StageNamed(other, n)
    decreases |stages|
  {
    if stages != [] {
      StageNamedByNames(stages[..|stages| - 1], other[..|other| - 1], n);
    }
  }

  lemma {:induction false} StagesInOrderByNames(stages: seq<Stage>, other: seq<Stage>, names: seq<string>)
    requires forall n :: StageNamed(stages, n) == StageNamed(other, n)
    ensures StagesInOrder(stages, names) == StagesInOrder(other, names)
    decreases |names|
  {
    if names != [] {
      StagesInOrderByNames(stages, other, names[1..]);
    }
  }

  /** Some card is linked to this application. */
  ghost predicate HasApplicationCard(cards: map<nat, Card>, application: nat) {
    exists id :: id in cards && cards[id].application == Some(application)
  }

  /** A card of board `b` in stage `s`. */
  predicate InStage(c: Card, b: nat, s: nat) {
    c.board == b && c.stage == s
  }

  /** `p` is one more than the highest position among the cards of board `b`
      in stage `s`, or 0 when there is none. */
  ghost predicate IsNextPosition(cards: map<nat, Card>, b: nat, s: nat, p: nat) {
    && (forall id :: id in cards && InStage(cards[id], b, s) ==> cards[id].position < p)
    && (p == 0 || exists id :: id in cards && InStage(cards[id], b, s) && cards[id].position == p - 1)
  }

  /** The next position is determined by the cards. */
  lemma NextPositionUnique(cards: map<nat, Card>, b: nat, s: nat, p: nat, q: nat)
    requires IsNextPosition(cards, b, s, p) && IsNextPosition(cards, b, s, q)
    ensures p == q
  {
    if q > 0 {
      var id :| id in cards && InStage(cards[id], b, s) && cards[id].position == q - 1;
      assert q <= p;
    }
    if p > 0 {
      var id :| id in cards && InStage(cards[id], b, s) && cards[id].position == p - 1;
      assert p <= q;
    }
  }

  /** The cards of board `b` in stage `s`. */
  function CardsIn(cards: map<nat, Card>, b: nat, s: nat): (r: set<nat>)
    ensures forall id :: id in r <==> id in cards && InStage(cards[id], b, s)
  {
    set id | id in cards.Keys && InStage(cards[id], b, s)
  }

  /** `column` lists cards of the table, each once, by non-decreasing
      position. */
  ghost predicate ByPosition(cards: map<nat, Card>, column: seq<nat>) {
    && (forall i :: 0 <= i < |column| ==> column[i] in cards)
    && (forall i, j :: 0 <= i < j < |column| ==> column[i] != column[j])
    && (forall i, j :: 0 <= i < j < |column| ==> cards[column[i]].position <= cards[column[j]].position)
  }

  /** `column` lists the cards of board `b` in stage `s`, each once, by
      position: the card table's `ordering` within one stage. */
  ghost predicate IsColumn(cards: map<nat, Card>, b: nat, s: nat, column: seq<nat>) {
    ByPosition(cards, column) && forall id :: id in column <==> id in CardsIn(cards, b, s)
  }

  /** Putting `id` at index `k` of `column`: the elements before keep their
      index, the ones after move up by one, and the elements are those of
      `column` and `id`. */
  lemma InsertedAt(column: seq<nat>, id: nat, k: nat)
    requires k <= |column|
    ensures var r := column[..k] + [id] + column[k..];
      && |r| == |column| + 1 && r[k] == id
      && (forall i :: 0 <= i < k ==> r[i] == column[i])
      && (forall i :: k < i < |r| ==> r[i] == column[i - 1])
      && (forall x :: x in r <==> x in column || x == id)
  {
    assert column == column[..k] + column[k..];
  }

  /** A card put after the cards whose position is no greater than its own,
      and before the rest, keeps a column ordered by position. */
  lemma InsertKeepsOrder(cards: map<nat, Card>, column: seq<nat>, id: nat, k: nat, r: seq<nat>)
    requires ByPosition(cards, column) && id in cards && id !in column && k <= |column|
    requires forall i :: 0 <= i < k ==> cards[column[i]].position <= cards[id].position
    requires k < |column| ==> cards[id].position < cards[column[k]].position
    requires |r| == |column| + 1 && r[k] == id
    requires forall i :: 0 <= i < k ==> r[i] == column[i]
    requires forall i :: k < i < |r| ==> r[i] == column[i - 1]
    ensures ByPosition(cards, r)
  {
    forall i | 0 <= i < |r| ensures r[i] in cards {
      if i < k {
        assert r[i] == column[i];
      } else if i > k {
        assert r[i] == column[i - 1];
      }
    }
    forall i, j | 0 <= i < j < |r|
      ensures r[i] != r[j] && cards[r[i]].position <= cards[r[j]].position
    {
      if j < k {
        assert r[i] == column[i] && r[j] == column[j];
      } else if j == k {
        assert r[i] == column[i];
      } else if i == k {
        assert r[j] == column[j - 1] && cards[column[k]].position <= cards[column[j - 1]].position;
      } else if i < k {
        assert r[i] == column[i] && r[j] == column[j - 1];
      } else {
        assert r[i] == column[i - 1] && r[j] == column[j - 1];
      }
    }
  }

  /** Every card of board `b` in stage `s` sits below `max`, so the next
      free position is at most `max`. */
  ghost predicate RoomAfter(cards: map<nat, Card>, b: nat, s: nat, max: nat) {
    forall id :: id in cards && InStage(cards[id], b, s) ==> cards[id].position < max
  }

  /** The next free position can be stored exactly when there is room after
      the last card. */
  lemma NextPositionFits(cards: map<nat, Card>, b: nat, s: nat, p: nat, max: nat)
    requires IsNextPosition(cards, b, s, p)
    ensures p <= max <==> RoomAfter(cards, b, s, max)
  {
    if p > max {
      var id :| id in cards && InStage(cards[id], b, s) && cards[id].position == p - 1;
      assert !RoomAfter(cards, b, s, max);
    }
  }

  /** Whether the position a move asks for can be stored: an absent
      position is 0, a number must lie between 0 and `max`, and null asks
      for the next free position, which must not exceed `max`. */
  ghost predicate PositionStorable(cards: map<nat, Card>, b: nat, s: nat, field: PositionField, max: nat) {
    match field
    case PositionAbsent => true
    case PositionNull => RoomAfter(cards, b, s, max)
    case PositionValue(n) => 0 <= n <= max
  }

  /** The JSON body of a move request; the position may be absent, null or
      a number. */
  datatype PositionField = PositionAbsent | PositionNull | PositionValue(n: int)
  datatype MoveRequest = MoveRequest(cardId: Option<nat>, newStageId: Option<nat>, newPosition: PositionField)

  /** The JSON body of a notes update; the notes may be absent, null or a
      string. */
  datatype NotesField = NotesAbsent | NotesNull | NotesValue(s: string)
  datatype NotesRequest = NotesRequest(notes: NotesField)

  datatype LikeOutcome = Liked | AlreadyLiked | LikeProfileNotFound
  datatype UnlikeOutcome = Unliked | NotLiked | UnlikeProfileNotFound

  /** The kanban tables. Stage and board keys are indexes; cards are keyed by
      an increasing id, likes are (recruiter, profile) pairs. `profiles` is
      the set of existing profile keys; `maxPosition` is the largest position
      the database stores. */
  class Pipeline {
    const maxPosition: nat
    var stages: seq<Stage>
    var boards: seq<Board>
    var cards: map<nat, Card>
    var nextCardId: nat
    var likes: set<(nat, nat)>
    var profiles: set<nat>

    /** The table constraints: unique stage names, cards that point at
        existing boards and stages with a storable position, at most one card
        per application; and one board per recruiter, which the board table
        does not enforce but every board creation here keeps, since each goes
        through `get_or_create` on the recruiter. */
    ghost predicate ValidTables()
      reads this
    {
      && (forall i, j :: 0 <= i < j < |stages| ==> stages[i].name != stages[j].name)
      && (forall i, j :: 0 <= i < j < |boards| ==> boards[i].recruiter != boards[j].recruiter)
      && (forall id :: id in cards ==> id < nextCardId && cards[id].board < |boards| && cards[id].stage < |stages|)
      && (forall id :: id in cards ==> cards[id].position <= maxPosition)
      && (forall a, b :: a in cards && b in cards && a != b && cards[a].application.Some? ==>
            cards[a].application != cards[b].application)
    }

    /** The tables, and a board for every recruiter who has liked a profile. */
    ghost predicate Valid()
      reads this
    {
      ValidTables() && LikesHaveBoards(likes, boards)
    }

    constructor (profiles: set<nat>, maxPosition: nat)
      ensures Valid()
      ensures stages == [] && boards == [] && cards == map[] && likes == {} && this.profiles == profiles
      ensures this.maxPosition == maxPosition
    {
      this.maxPosition := maxPosition;
      stages, boards, cards, nextCardId := [], [], map[], 0;
      likes := {};
      this.profiles := profiles;
    }

    /** `PipelineStage.objects.get_or_create(name=..., defaults=...)`: the
        stage with this name, or a new one saved with the defaults. */
    method GetOrCreateStage(name: string, order: nat, color: string) returns (id: nat)
      requires Valid()
      modifies this
      ensures Valid()
      ensures id < |stages| && stages[id].name == name
      ensures StageNamed(old(stages), name).Some? ==> stages == old(stages)
      ensures StageNamed(old(stages), name).None? ==> stages == old(stages) + [Stage(name, SavedOrder(name, order), color)]
      ensures boards == old(boards) && cards == old(cards) && nextCardId == old(nextCardId)
      ensures likes == old(likes) && profiles == old(profiles)
    {
      var found := StageNamed(stages, name);
      if found.Some? {
        id := found.value;
      } else {
        id := |stages|;
        stages := stages + [Stage(name, SavedOrder(name, order), color)];
      }
    }

    /** `_ensure_pipeline_stages`: afterwards all five stages exist; stages
        that existed keep their order and colour, new ones get their
        position in the board order, and when all five existed nothing
        changes. */
    method EnsurePipelineStages()
      requires Valid()
      modifies this
      ensures Valid()
      ensures AllStagesExist(stages)
      ensures GrownByConfigured(old(stages), stages)
      ensures AllStagesExist(old(stages)) ==> stages == old(stages)
      ensures boards == old(boards) && cards == old(cards) && nextCardId == old(nextCardId)
      ensures likes == old(likes) && profiles == old(profiles)
    {
      for i := 0 to |StageNames|
        invariant Valid()
        invariant AllNamed(stages, StageNames[..i])
        invariant GrownByConfigured(old(stages), stages)
        invariant AllStagesExist(old(stages)) ==> stages == old(stages)
        invariant boards == old(boards) && cards == old(cards) && nextCardId == old(nextCardId)
        invariant likes == old(likes) && profiles == old(profiles)
      {
        ghost var before := stages;
        ConfiguredOrders(i);
        var _ := GetOrCreateStage(StageNames[i], i, StageColors[i]);
        NamedStep(old(stages), before, stages, StageNames[..i], StageNames[i]);
        assert StageNames[..i] + [StageNames[i]] == StageNames[..i + 1];
      }
      assert StageNames[..|StageNames|] == StageNames;
    }

    /** `KanbanBoard.objects.get_or_create(recruiter=...)`: the recruiter's
        board, or a new one with the given name. */
    method GetOrCreateBoard(recruiter: nat, name: string) returns (b: nat)
      requires ValidTables()
      modifies this
      ensures ValidTables()
      ensures b < |boards| && boards[b].recruiter == recruiter
      ensures BoardOf(old(boards), recruiter).Some? ==> boards == old(boards) && b == BoardOf(old(boards), recruiter).value
      ensures BoardOf(old(boards), recruiter).None? ==> boards == old(boards) + [Board(recruiter, name)]
      ensures forall r :: BoardOf(old(boards), r).Some? ==> BoardOf(boards, r) == BoardOf(old(boards), r)
      ensures BoardOf(boards, recruiter) == Some(b)
      ensures stages == old(stages) && cards == old(cards) && nextCardId == old(nextCardId)
      ensures likes == old(likes) && profiles == old(profiles)
    {
      var found := BoardOf(boards, recruiter);
      if found.Some? {
        b := found.value;
      } else {
        b := |boards|;
        boards := boards + [Board(recruiter, name)];
        assert boards[..|boards| - 1] == old(boards);
      }
    }

    /** `kanban_board`: makes sure the stages and the recruiter's board
        exist, then shows the five stages in the fixed order, each with the
        board's cards in it by position. */
    method ShowBoard(recruiter: nat) returns (b: nat, shown: seq<nat>, cardsByStage: seq<seq<nat>>)
      requires Valid()
      modifies this
      ensures Valid()
      ensures GrownByConfigured(old(stages), stages) && AllStagesExist(stages)
      ensures AllStagesExist(old(stages)) ==> stages == old(stages)
      ensures boards == if BoardOf(old(boards), recruiter).Some? then old(boards)
                        else old(boards) + [Board(recruiter, DefaultBoardName)]
      ensures BoardOf(boards, recruiter) == Some(b)
      ensures |shown| == |StageNames|
      ensures forall i :: 0 <= i < |shown| ==> shown[i] < |stages| && stages[shown[i]].name == StageNames[i]
      ensures |cardsByStage| == |shown| && forall i :: 0 <= i < |shown| ==> IsColumn(cards, b, shown[i], cardsByStage[i])
      ensures cards == old(cards) && nextCardId == old(nextCardId) && likes == old(likes) && profiles == old(profiles)
    {
      EnsurePipelineStages();
      b := GetOrCreateBoard(recruiter, DefaultBoardName);
      shown := BoardStages(stages);
      cardsByStage := Columns(b, shown);
    }

    /** The board's cards, one column per shown stage. */
    method Columns(b: nat, shown: seq<nat>) returns (cardsByStage: seq<seq<nat>>)
      ensures |cardsByStage| == |shown|
      ensures forall i :: 0 <= i < |shown| ==> IsColumn(cards, b, shown[i], cardsByStage[i])
    {
      cardsByStage := [];
      for i := 0 to |shown|
        invariant |cardsByStage| == i
        invariant forall k :: 0 <= k < i ==> IsColumn(cards, b, shown[k], cardsByStage[k])
      {
        var column := Column(b, shown[i]);
        cardsByStage := cardsByStage + [column];
      }
    }

    /** The cards of board `b` in stage `s`, as the card table's ordering by
        position lists them. */
    method Column(b: nat, s: nat) returns (column: seq<nat>)
      ensures IsColumn(cards, b, s, column)
    {
      column := [];
      var todo := CardsIn(cards, b, s);
      while todo != {}
        invariant todo <= CardsIn(cards, b, s)
        invariant ByPosition(cards, column)
        invariant forall id :: id in column <==> id in CardsIn(cards, b, s) && id !in todo
        decreases |todo|
      {
        var id :| id in todo;
        column := InsertByPosition(column, id);
        todo := todo - {id};
      }
    }

    /** Inserts a card into a column kept by position, after the cards with
        a position no greater than its own. */
    method InsertByPosition(column: seq<nat>, id: nat) returns (r: seq<nat>)
      requires ByPosition(cards, column) && id in cards && id !in column
      ensures ByPosition(cards, r)
      ensures forall x :: x in r <==> x in column || x == id
    {
      var k := 0;
      while k < |column| && cards[column[k]].position <= cards[id].position
        invariant k <= |column|
        invariant forall i :: 0 <= i < k ==> cards[column[i]].position <= cards[id].position
      {
        k := k + 1;
      }
      r := column[..k] + [id] + column[k..];
      InsertedAt(column, id, k);
      InsertKeepsOrder(cards, column, id, k, r);
    }

    /** `like_profile`: makes sure the stages exist, answers 404 for an
        unknown profile, `already_liked` for a repeated like, and otherwise
        records the like (see `RecordLike`). */
    method LikeProfile(recruiter: nat, profile: nat) returns (outcome: LikeOutcome)
      requires Valid()
      modifies this
      ensures Valid()
      ensures outcome == LikeProfileNotFound <==> profile !in profiles
      ensures outcome == Liked <==> profile in profiles && (recruiter, profile) !in old(likes)
      ensures outcome == AlreadyLiked <==> profile in profiles && (recruiter, profile) in old(likes)
      ensures likes == if outcome == Liked then old(likes) + {(recruiter, profile)} else old(likes)
      ensures GrownByConfigured(old(stages), stages) && AllStagesExist(stages)
      ensures AllStagesExist(old(stages)) ==> stages == old(stages)
      ensures outcome == Liked ==>
        && BoardOf(boards, recruiter).Some?
        && nextCardId == old(nextCardId) + 1
        && cards == old(cards)[old(nextCardId) := Card(BoardOf(boards, recruiter).value, profile, None,
                                                       StageNamed(stages, FirstStage).value, 0, "")]
        && boards == if BoardOf(old(boards), recruiter).Some? then old(boards)
                     else old(boards) + [Board(recruiter, DefaultBoardName)]
      ensures outcome != Liked ==> cards == old(cards) && boards == old(boards) && nextCardId == old(nextCardId)
      ensures profiles == old(profiles)
    {
      EnsurePipelineStages();
      if profile !in profiles {
        outcome := LikeProfileNotFound;
      } else if (recruiter, profile) in likes {
        outcome := AlreadyLiked;
      } else {
        RecordLike(recruiter, profile);
        outcome := Liked;
      }
    }

    /** The liking part of `like_profile`: records the like, gets or creates
        the recruiter's board and puts one card for the profile in the first
        stage, at position 0. */
    method RecordLike(recruiter: nat, profile: nat)
      requires Valid() && AllStagesExist(stages)
      requires (recruiter, profile) !in likes
      modifies this
      ensures Valid() && AllStagesExist(stages)
      ensures likes == old(likes) + {(recruiter, profile)}
      ensures BoardOf(boards, recruiter).Some?
      ensures nextCardId == old(nextCardId) + 1
      ensures cards == old(cards)[old(nextCardId) := Card(BoardOf(boards, recruiter).value, profile, None,
                                                         StageNamed(stages, FirstStage).value, 0, "")]
      ensures boards == if BoardOf(old(boards), recruiter).Some? then old(boards)
                        else old(boards) + [Board(recruiter, DefaultBoardName)]
      ensures stages == old(stages) && profiles == old(profiles)
    {
      var b := GetOrCreateBoard(recruiter, DefaultBoardName);
      assert FirstStage in StageNames;
      var first := StageNamed(stages, FirstStage).value;
      var _ := AddCard(Card(b, profile, None, first, 0, ""));
      forall like | like in old(likes) ensures BoardOf(boards, like.0).Some? {
        assert BoardOf(old(boards), like.0).Some?;
      }
      likes := likes + {(recruiter, profile)};
    }

    /** Inserts a card under the next id. */
    method AddCard(card: Card) returns (id: nat)
      requires ValidTables()
      requires card.board < |boards| && card.stage < |stages| && card.position <= maxPosition
      requires card.application.Some? ==> forall k :: k in cards ==> cards[k].application != card.application
      modifies this
      ensures ValidTables()
      ensures id == old(nextCardId) && id !in old(cards)
      ensures cards == old(cards)[id := card] && nextCardId == old(nextCardId) + 1
      ensures stages == old(stages) && boards == old(boards) && likes == old(likes) && profiles == old(profiles)
    {
      id := nextCardId;
      cards := cards[id := card];
      nextCardId := nextCardId + 1;
    }

    /** `unlike_profile`: answers 404 for an unknown profile and `not_liked`
        when there is no like; otherwise deletes the like and every card of
        the profile on the recruiter's board, application cards included. */
    method UnlikeProfile(recruiter: nat, profile: nat) returns (outcome: UnlikeOutcome)
      requires Valid()
      modifies this
      ensures Valid()
      ensures outcome == UnlikeProfileNotFound <==> profile !in profiles
      ensures outcome == Unliked <==> profile in profiles && (recruiter, profile) in old(likes)
      ensures likes == if outcome == Unliked then old(likes) - {(recruiter, profile)} else old(likes)
      ensures outcome == Unliked ==>
        && BoardOf(boards, recruiter).Some?
        && (forall id :: id in cards <==> id in old(cards) && !(old(cards)[id].board == BoardOf(boards, recruiter).value
                                                               && old(cards)[id].profile == profile))
        && (forall id :: id in cards ==> cards[id] == old(cards)[id])
      ensures outcome != Unliked ==> cards == old(cards)
      ensures stages == old(stages) && boards == old(boards) && nextCardId == old(nextCardId) && profiles == old(profiles)
    {
      if profile !in profiles {
        return UnlikeProfileNotFound;
      }
      if (recruiter, profile) !in likes {
        return NotLiked;
      }
      var b := BoardOf(boards, recruiter).value;
      likes := likes - {(recruiter, profile)};
      cards := map id | id in cards.Keys && !(cards[id].board == b && cards[id].profile == profile) :: cards[id];
      outcome := Unliked;
    }

    /** The position after the highest one among the cards of board `b` in
        stage `s`, or 0 when there is none. */
    method NextPosition(b: nat, s: nat) returns (p: nat)
      ensures IsNextPosition(cards, b, s, p)
    {
      p := 0;
      var todo := cards.Keys;
      while todo != {}
        invariant todo <= cards.Keys
        invariant forall id :: id in cards && id !in todo && InStage(cards[id], b, s) ==> cards[id].position < p
        invariant p == 0 || exists id :: id in cards && InStage(cards[id], b, s) && cards[id].position == p - 1
        decreases |todo|
      {
        var id :| id in todo;
        if InStage(cards[id], b, s) && cards[id].position + 1 > p {
          p := cards[id].position + 1;
        }
        todo := todo - {id};
      }
    }

    /** `ProfileCard.move_to_stage`: sets the card's stage and its position,
        the given one or else the next free one in the target stage (the card
        itself counts if it is already there). A position the column cannot
        store, negative or above `maxPosition`, makes the save fail and
        nothing changes. Otherwise only this card changes; `stageChanged`
        says whether the stage changed, which is when the linked application
        is touched. */
    method MoveToStage(cardId: nat, newStage: nat, newPosition: Option<int>) returns (saved: bool, stageChanged: bool)
      requires Valid()
      requires cardId in cards && newStage < |stages|
      modifies this
      ensures Valid()
      ensures saved <==> if newPosition.Some? then 0 <= newPosition.value <= maxPosition
                         else RoomAfter(old(cards), old(cards)[cardId].board, newStage, maxPosition)
      ensures !saved ==> cards == old(cards)
      ensures saved ==>
        && cards.Keys == old(cards).Keys
        && (forall id :: id in cards && id != cardId ==> cards[id] == old(cards)[id])
        && cards[cardId] == old(cards)[cardId].(stage := newStage, position := cards[cardId].position)
        && (newPosition.Some? ==> cards[cardId].position == newPosition.value)
        && (newPosition.None? ==> IsNextPosition(old(cards), old(cards)[cardId].board, newStage, cards[cardId].position))
      ensures stageChanged <==> saved && old(cards)[cardId].stage != newStage
      ensures stages == old(stages) && boards == old(boards) && nextCardId == old(nextCardId)
      ensures likes == old(likes) && profiles == old(profiles)
    {
      var card := cards[cardId];
      var position: int;
      if newPosition.None? {
        var next := NextPosition(card.board, newStage);
        NextPositionFits(cards, card.board, newStage, next, maxPosition);
        position := next;
      } else {
        position := newPosition.value;
      }
      if position < 0 || position > maxPosition {
        return false, false;
      }
      cards := cards[cardId := card.(stage := newStage, position := position)];
      saved, stageChanged := true, card.stage != newStage;
    }

    /** `MoveCardView`: the view answers POST only; OPTIONS is answered by
        Django's base view (200, nothing changes) and every other method
        with 405. For a POST, a body that is not a JSON object, a card that
        is not on the requester's board, an unknown stage or a position the
        column cannot store all answer 400 and change nothing. An absent
        position means 0; only an explicit null asks for the next free
        position. */
    method MoveCard(requester: nat, httpMethod: string, body: Option<MoveRequest>) returns (status: nat)
      requires Valid()
      modifies this
      ensures Valid()
      ensures stages == old(stages) && boards == old(boards) && nextCardId == old(nextCardId)
      ensures likes == old(likes) && profiles == old(profiles)
      ensures httpMethod == "OPTIONS" ==> status == 200 && cards == old(cards)
      ensures httpMethod != "POST" && httpMethod != "OPTIONS" ==> status == 405 && cards == old(cards)
      ensures httpMethod == "POST" ==> status == 200 || status == 400
      ensures httpMethod == "POST" ==> (status == 200 <==>
        && body.Some?
        && body.value.cardId.Some? && body.value.cardId.value in old(cards)
        && boards[old(cards)[body.value.cardId.value].board].recruiter == requester
        && body.value.newStageId.Some? && body.value.newStageId.value < |stages|
        && PositionStorable(old(cards), old(cards)[body.value.cardId.value].board, body.value.newStageId.value,
                            body.value.newPosition, maxPosition))
      ensures httpMethod == "POST" && status == 200 ==>
        var id, s := body.value.cardId.value, body.value.newStageId.value;
        && cards.Keys == old(cards).Keys
        && (forall other :: other in cards && other != id ==> cards[other] == old(cards)[other])
        && cards[id] == old(cards)[id].(stage := s, position := cards[id].position)
        && (body.value.newPosition.PositionAbsent? ==> cards[id].position == 0)
        && (body.value.newPosition.PositionValue? ==> cards[id].position == body.value.newPosition.n)
        && (body.value.newPosition.PositionNull? ==> IsNextPosition(old(cards), old(cards)[id].board, s, cards[id].position))
      ensures status == 400 ==> cards == old(cards)
    {
      if httpMethod == "OPTIONS" {
        return 200;
      }
      if httpMethod != "POST" {
        return 405;
      }
      if body.None? {
        return 400;
      }
      var request := body.value;
      if request.cardId.None? || request.cardId.value !in cards || boards[cards[request.cardId.value].board].recruiter != requester {
        return 400;
      }
      if request.newStageId.None? || request.newStageId.value >= |stages| {
        return 400;
      }
      var position: Option<int>;
      match request.newPosition {
        case PositionAbsent =>
          position := Some(0);
        case PositionNull =>
          position := None;
        case PositionValue(n) =>
          position := Some(n);
      }
      var saved, _ := MoveToStage(request.cardId.value, request.newStageId.value, position);
      status := if saved then 200 else 400;
    }

    /** `update_card_notes`: any method but POST answers 405; a body that is
        not a JSON object, a card that is not on the requester's board, or
        null notes, which the non-null notes column refuses on save, answer
        400; otherwise the notes are replaced (absent notes mean ""). */
    method UpdateCardNotes(requester: nat, httpMethod: string, cardId: nat, body: Option<NotesRequest>)
      returns (status: nat)
      requires Valid()
      modifies this
      ensures Valid()
      ensures stages == old(stages) && boards == old(boards) && nextCardId == old(nextCardId)
      ensures likes == old(likes) && profiles == old(profiles)
      ensures httpMethod != "POST" ==> status == 405
      ensures httpMethod == "POST" ==> status == 200 || status == 400
      ensures status == 200 <==>
        && httpMethod == "POST" && body.Some? && !body.value.notes.NotesNull?
        && cardId in old(cards) && boards[old(cards)[cardId].board].recruiter == requester
      ensures status == 200 ==>
        cards == old(cards)[cardId := old(cards)[cardId].(notes := if body.value.notes.NotesValue? then body.value.notes.s else "")]
      ensures status != 200 ==> cards == old(cards)
    {
      if httpMethod != "POST" {
        return 405;
      }
      if body.None? || cardId !in cards || boards[cards[cardId].board].recruiter != requester {
        return 400;
      }
      match body.value.notes {
        case NotesNull =>
          return 400;
        case NotesAbsent =>
          cards := cards[cardId := cards[cardId].(notes := "")];
        case NotesValue(notes) =>
          cards := cards[cardId := cards[cardId].(notes := notes)];
      }
      status := 200;
    }

    /** Whether some card is already linked to this application. */
    method HasCardFor(application: nat) returns (found: bool)
      ensures found <==> HasApplicationCard(cards, application)
    {
      found := false;
      var todo := cards.Keys;
      while todo != {}
        invariant todo <= cards.Keys
        invariant found <==> exists id :: id in cards && id !in todo && cards[id].application == Some(application)
        decreases |todo|
      {
        var id :| id in todo;
        if cards[id].application == Some(application) {
          found := true;
        }
        todo := todo - {id};
      }
    }
  }

  /** A longer stage table with the same prefix still holds every name it
      held, at the same key. */
  lemma StageNamedKept(before: seq<Stage>, after: seq<Stage>, n: string)
    requires |before| <= |after| && after[..|before|] == before
    requires StageNamed(before, n).Some?
    ensures StageNamed(after, n) == StageNamed(before, n)
    decreases |after|
  {
    if |after| > |before| {
      assert after[..|after| - 1][..|before|] == before;
      StageNamedKept(before, after[..|after| - 1], n);
    } else {
      assert after == before;
    }
  }

  /** One step of `_ensure_pipeline_stages`: the table is unchanged, or grows
      by a configured stage; the names found before are still found, and the
      stage just looked up is found too. */
  lemma NamedStep(start: seq<Stage>, before: seq<Stage>, after: seq<Stage>, names: seq<string>, n: string)
    requires GrownByConfigured(start, before) && AllNamed(before, names)
    requires n in StageNames && StageNamed(after, n).Some?
    requires after == before || after == before + [Stage(n, CanonicalOrder(n), after[|after| - 1].color)]
    ensures GrownByConfigured(start, after) && AllNamed(after, names + [n])
  {
    assert after[..|before|] == before;
    if after != before {
      assert after[..|start|] == before[..|start|];
    }
    forall m | m in names + [n] ensures StageNamed(after, m).Some? {
      if m in names {
        StageNamedKept(before, after, m);
      }
    }
  }
}
