/**
 * The watcher's snapshot holder: the first snapshot becomes the baseline, every later
 * one is diffed against the current one and then the pair is rotated. A non-empty diff
 * is handed to the notification channel, modelled as the sequence of diffs sent so far.
 */
module WatcherState {
  import opened Wrappers
  import opened Planka
  import opened WatcherDiff

  /** What one diffing step hands to the channel: the diff, unless it is empty. */
  function Emitted(d: Diff): (r: seq<Diff>)
    ensures r == [] <==> d.IsEmpty()
    ensures |r| <= 1
    ensures forall e :: e in r ==> e == d
  {
    if d.IsEmpty() then [] else [d]
  }

  class State {
    /** The current snapshot; None until the first poll. */
    var value: Option<PlankaData>
    /** The snapshot before the current one; None until the second poll. */
    var oldValue: Option<PlankaData>
    /** Every diff handed to the notification channel, oldest first. */
    var sent: seq<Diff>

    ghost predicate Valid()
      reads this
    {
      && (oldValue.Some? ==> value.Some?)
      && (forall i :: 0 <= i < |sent| ==> !sent[i].IsEmpty())
    }

    constructor ()
      ensures Valid()
      ensures value == None && oldValue == None && sent == []
    {
      value := None;
      oldValue := None;
      sent := [];
    }

    /**
     * Takes the snapshot of one poll. The first one becomes the baseline and nothing is
     * diffed; afterwards the diff against the current snapshot is emitted when non-empty
     * and the pair is rotated either way.
     */
    method SetNewState(newState: PlankaData)
      requires Valid()
      modifies this
      ensures Valid()
      ensures old(value).None? ==>
        value == Some(newState) && oldValue == old(oldValue) && sent == old(sent)
      ensures old(value).Some? ==>
        && value == Some(newState)
        && oldValue == old(value)
        && sent == old(sent) + Emitted(Classify(old(value).value, newState))
    {
      if value.None? {
        value := Some(newState);
        return;
      }
      FindDiff(newState);
      oldValue := value;
      value := Some(newState);
    }

    /** Builds the diff of the current snapshot against `newState` set by set and sends it unless empty. */
    method FindDiff(newState: PlankaData)
      requires Valid() && value.Some?
      modifies this`sent
      ensures Valid()
      ensures sent == old(sent) + Emitted(Classify(value.value, newState))
    {
      var oldState := value.value;
      var add: set<CardId>, update: set<CardId>, move: set<CardId>, delete: set<CardId> := {}, {}, {}, {};
      add := add + (CardIds(newState.cards) - CardIds(oldState.cards));
      delete := delete + (CardIds(oldState.cards) - CardIds(newState.cards));
      move := move + MovedCards(oldState, newState);
      update := update + (ChangedCards(oldState, newState) - move);
      update := update + AddedTaskCards(oldState, newState);
      update := update + RemovedTaskCards(oldState, newState);
      update := update + ChangedTaskCards(oldState, newState);
      update := update - add;
      var diff := Diff(add, update, move, delete);
      assert diff == Classify(oldState, newState);
      if diff.IsEmpty() {
        return;
      }
      sent := sent + [diff];
    }
  }

  /**
   * Two polls that return the same well-formed snapshot: the first becomes the baseline,
   * the second is diffed against it and nothing reaches the channel.
   */
  method RepeatedPollSendsNothing(s: PlankaData) returns (sent: seq<Diff>)
    requires KeyedById(s)
    ensures sent == []
  {
    var state := new State();
    state.SetNewState(s);
    state.SetNewState(s);
    ClassifySameIsEmpty(s);
    sent := state.sent;
  }
}
