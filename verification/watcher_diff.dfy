/**
 * The diff classifier of the watcher: which cards of a board were added, updated,
 * moved to another list or deleted between two consecutive snapshots.
 */
module WatcherDiff {
  import opened Wrappers
  import opened Planka

  /** The kinds of change a subscription can watch. */
  datatype BoardAction = Add | Update | MoveToList | Delete

  /** The actions in declaration order, the order in which a diff is traversed. */
  const Actions: seq<BoardAction> := [Add, Update, MoveToList, Delete]

  /** Position of an action in `Actions`. */
  function Rank(a: BoardAction): (r: nat)
    ensures r < |Actions| && Actions[r] == a
  {
    match a
    case Add => 0
    case Update => 1
    case MoveToList => 2
    case Delete => 3
  }

  /** The card ids affected by each action. */
  datatype Diff = Diff(add: set<CardId>, update: set<CardId>, moveToList: set<CardId>, delete: set<CardId>)
  {
    function Get(a: BoardAction): set<CardId>
    {
      match a
      case Add => add
      case Update => update
      case MoveToList => moveToList
      case Delete => delete
    }

    /** No action has any card: such a diff is never sent. */
    predicate IsEmpty()
    {
      add == {} && update == {} && moveToList == {} && delete == {}
    }
  }

  // The steps of the classification, each over the records as they are stored.

  /** Ids on new card records that no old card record carries. */
  function AddedCards(o: PlankaData, n: PlankaData): set<CardId>
  {
    CardIds(n.cards) - CardIds(o.cards)
  }

  /** Ids on old card records that no new card record carries. */
  function DeletedCards(o: PlankaData, n: PlankaData): set<CardId>
  {
    CardIds(o.cards) - CardIds(n.cards)
  }

  /** New cards whose old record, looked up under the card's id, exists and has another list id. */
  function MovedCards(o: PlankaData, n: PlankaData): set<CardId>
  {
    set k | k in n.cards && n.cards[k].id in o.cards && o.cards[n.cards[k].id].listId != n.cards[k].listId
      :: n.cards[k].id
  }

  /** New cards whose old record, looked up under the card's id, is missing or different. */
  function ChangedCards(o: PlankaData, n: PlankaData): set<CardId>
  {
    set k | k in n.cards && (n.cards[k].id !in o.cards || o.cards[n.cards[k].id] != n.cards[k])
      :: n.cards[k].id
  }

  /** Owning cards of the tasks whose ids are new, each task looked up in the new snapshot. */
  function AddedTaskCards(o: PlankaData, n: PlankaData): set<CardId>
  {
    set t | t in TaskIds(n.tasks) - TaskIds(o.tasks) && t in n.tasks && n.tasks[t].cardId.Some?
      :: n.tasks[t].cardId.value
  }

  /** Owning cards of the tasks whose ids disappeared, each task looked up in the old snapshot. */
  function RemovedTaskCards(o: PlankaData, n: PlankaData): set<CardId>
  {
    set t | t in TaskIds(o.tasks) - TaskIds(n.tasks) && t in o.tasks && o.tasks[t].cardId.Some?
      :: o.tasks[t].cardId.value
  }

  /** Owning cards of the new tasks whose old record is missing or different. */
  function ChangedTaskCards(o: PlankaData, n: PlankaData): set<CardId>
  {
    set k | k in n.tasks && (n.tasks[k].id !in o.tasks || o.tasks[n.tasks[k].id] != n.tasks[k])
            && n.tasks[k].cardId.Some?
      :: n.tasks[k].cardId.value
  }

  /**
   * The diff between an old and a new snapshot. UPDATE gathers the changed cards that
   * did not move and every card a task change touches, and then loses the added cards.
   * Whatever the snapshots, no card is both added and deleted, and no added card is
   * also reported as updated.
   */
  function Classify(o: PlankaData, n: PlankaData): (r: Diff)
    ensures r.add !! r.delete
    ensures r.add !! r.update
  {
    var add := AddedCards(o, n);
    var move := MovedCards(o, n);
    var update := (ChangedCards(o, n) - move)
                  + AddedTaskCards(o, n) + RemovedTaskCards(o, n) + ChangedTaskCards(o, n);
    Diff(add, update - add, move, DeletedCards(o, n))
  }

  // Reference definitions over the keys of snapshots keyed by id.

  /** The card exists in both snapshots with different records. */
  ghost predicate RecordChanged(o: PlankaData, n: PlankaData, id: CardId)
  {
    id in o.cards && id in n.cards && o.cards[id] != n.cards[id]
  }

  /** The card exists in both snapshots in different lists. */
  ghost predicate ListChanged(o: PlankaData, n: PlankaData, id: CardId)
  {
    id in o.cards && id in n.cards && o.cards[id].listId != n.cards[id].listId
  }

  /**
   * Cards that own a task that was added or changed (owner taken from the new record)
   * or removed (owner taken from the old record).
   */
  ghost function TouchedByTasks(o: PlankaData, n: PlankaData): set<CardId>
  {
    (set k | k in n.tasks && (k !in o.tasks || o.tasks[k] != n.tasks[k]) && n.tasks[k].cardId.Some?
       :: n.tasks[k].cardId.value)
    + (set k | k in o.tasks && k !in n.tasks && o.tasks[k].cardId.Some? :: o.tasks[k].cardId.value)
  }

  /** ADD is exactly the new card ids minus the old ones, DELETE the converse; they never meet. */
  lemma ClassifyAddDelete(o: PlankaData, n: PlankaData)
    requires KeyedById(o) && KeyedById(n)
    ensures Classify(o, n).add == n.cards.Keys - o.cards.Keys
    ensures Classify(o, n).delete == o.cards.Keys - n.cards.Keys
    ensures Classify(o, n).add !! Classify(o, n).delete
  {
    CardIdsAreKeys(o);
    CardIdsAreKeys(n);
  }

  /** MOVE_TO_LIST is exactly the cards present in both snapshots whose list changed. */
  lemma ClassifyMove(o: PlankaData, n: PlankaData)
    requires KeyedById(o) && KeyedById(n)
    ensures forall id :: id in Classify(o, n).moveToList <==> ListChanged(o, n, id)
    ensures Classify(o, n).moveToList !! Classify(o, n).add
    ensures Classify(o, n).moveToList !! Classify(o, n).delete
  {
    ClassifyAddDelete(o, n);
    forall id ensures id in MovedCards(o, n) <==> ListChanged(o, n, id) {
      if ListChanged(o, n, id) {
        assert n.cards[id].id == id;
      }
    }
  }

  /** Under keys, the changed-card step picks the new cards whose old record is missing or different. */
  lemma ChangedCardsByKey(o: PlankaData, n: PlankaData)
    requires KeyedById(o) && KeyedById(n)
    ensures forall id :: id in ChangedCards(o, n) <==> id in n.cards && (id !in o.cards || o.cards[id] != n.cards[id])
  {
    forall id | id in n.cards && (id !in o.cards || o.cards[id] != n.cards[id])
      ensures id in ChangedCards(o, n)
    {
      assert n.cards[id].id == id;
    }
  }

  /** Under keys, the three task steps together pick exactly the cards the task changes touch. */
  lemma TaskCardsByKey(o: PlankaData, n: PlankaData)
    requires KeyedById(o) && KeyedById(n)
    ensures AddedTaskCards(o, n) + RemovedTaskCards(o, n) + ChangedTaskCards(o, n) == TouchedByTasks(o, n)
  {
    TaskIdsAreKeys(o);
    TaskIdsAreKeys(n);
    forall k | k in n.tasks && (k !in o.tasks || o.tasks[k] != n.tasks[k]) && n.tasks[k].cardId.Some?
      ensures n.tasks[k].cardId.value in ChangedTaskCards(o, n)
    {
      assert n.tasks[k].id == k;
    }
  }

  /**
   * A card is in UPDATE exactly when it was not added and either its record changed
   * while it stayed in its list, or one of its tasks was added, removed or changed.
   * Task-triggered entries are not filtered against MOVE_TO_LIST.
   */
  lemma ClassifyUpdate(o: PlankaData, n: PlankaData)
    requires KeyedById(o) && KeyedById(n)
    ensures forall id :: id in Classify(o, n).update <==>
      id !in Classify(o, n).add
      && ((RecordChanged(o, n, id) && !ListChanged(o, n, id)) || id in TouchedByTasks(o, n))
    ensures Classify(o, n).update !! Classify(o, n).add
  {
    ClassifyAddDelete(o, n);
    ClassifyMove(o, n);
    ChangedCardsByKey(o, n);
    TaskCardsByKey(o, n);
  }

  /** Diffing a snapshot against itself finds nothing. */
  lemma ClassifySameIsEmpty(s: PlankaData)
    requires KeyedById(s)
    ensures Classify(s, s).IsEmpty()
  {
    ClassifyMove(s, s);
    ChangedCardsByKey(s, s);
    TaskCardsByKey(s, s);
    assert TouchedByTasks(s, s) == {};
  }

  /** A card that moved and whose task changed is reported both as moved and as updated. */
  lemma MovedCardWithTaskChangeIsUpdated(o: PlankaData, n: PlankaData, id: CardId)
    requires KeyedById(o) && KeyedById(n)
    requires ListChanged(o, n, id) && id in TouchedByTasks(o, n)
    ensures id in Classify(o, n).moveToList && id in Classify(o, n).update
  {
    ClassifyMove(o, n);
    ClassifyUpdate(o, n);
  }
}
