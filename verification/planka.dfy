/**
 * One observation of the board service: the records the watcher compares from one
 * poll to the next (PlankaData and the records it holds).
 */
module Planka {
  import opened Wrappers

  type ProjectId = int
  type BoardId = int
  type ListId = int
  type CardId = int
  type UserId = int
  type TaskId = int

  datatype Project = Project(id: ProjectId, name: string)

  datatype Board = Board(name: string, id: BoardId, projectId: ProjectId)

  datatype PlankaList = PlankaList(id: ListId, boardId: BoardId, name: string)

  datatype UserData = UserData(id: UserId, name: string)

  /**
   * A card. `extra` stands for the fields the watcher never reads by name; they
   * still take part in the structural equality of two records.
   */
  datatype CardData = CardData(
    id: CardId,
    boardId: BoardId,
    listId: ListId,
    creatorUserId: UserId,
    name: string,
    extra: seq<string>)

  /** A checklist item; its owning card may be unknown. */
  datatype TaskData = TaskData(id: TaskId, cardId: Option<CardId>, extra: seq<string>)

  /** A full snapshot. Each map is meant to be keyed by the id of the record it holds. */
  datatype PlankaData = PlankaData(
    projects: map<ProjectId, Project>,
    boards: map<BoardId, Board>,
    cards: map<CardId, CardData>,
    users: map<UserId, UserData>,
    lists: map<ListId, PlankaList>,
    tasks: map<TaskId, TaskData>)

  /**
   * The ids carried by the card records themselves (`cards.values.map(CardData::id)`),
   * written as a walk over the keys, which visits the same records.
   */
  function CardIds(cards: map<CardId, CardData>): set<CardId>
  {
    set k | k in cards :: cards[k].id
  }

  /** The ids carried by the task records themselves (`tasks.values.map(TaskData::id)`). */
  function TaskIds(tasks: map<TaskId, TaskData>): set<TaskId>
  {
    set k | k in tasks :: tasks[k].id
  }

  /** Every card and every task is stored under its own id. */
  ghost predicate KeyedById(s: PlankaData)
  {
    && (forall k :: k in s.cards ==> s.cards[k].id == k)
    && (forall k :: k in s.tasks ==> s.tasks[k].id == k)
  }

  /** In a snapshot keyed by id, the ids on the card records are exactly the keys. */
  lemma CardIdsAreKeys(s: PlankaData)
    requires KeyedById(s)
    ensures CardIds(s.cards) == s.cards.Keys
  {
    forall id | id in s.cards.Keys ensures id in CardIds(s.cards) {
      assert s.cards[id].id == id;
    }
  }

  /** In a snapshot keyed by id, the ids on the task records are exactly the keys. */
  lemma TaskIdsAreKeys(s: PlankaData)
    requires KeyedById(s)
    ensures TaskIds(s.tasks) == s.tasks.Keys
  {
    forall id | id in s.tasks.Keys ensures id in TaskIds(s.tasks) {
      assert s.tasks[id].id == id;
    }
  }
}
