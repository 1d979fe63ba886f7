/** The per-task reveal toggle of src/models/reveal_state.py. */
module RevealStates {

  /** The reveal set after toggling `taskId`: its membership flips, no other id changes. */
  function Toggled(revealed: set<int>, taskId: int): (r: set<int>)
    ensures taskId in r <==> taskId !in revealed
    ensures forall other :: other != taskId ==> (other in r <==> other in revealed)
  {
    if taskId in revealed then revealed - {taskId} else revealed + {taskId}
  }

  /** Toggling the same id twice restores the original set. */
  lemma ToggledTwice(revealed: set<int>, taskId: int)
    ensures Toggled(Toggled(revealed, taskId), taskId) == revealed
  {
  }

  class RevealState {
    /** The task ids currently revealed. */
    var revealed: set<int>

    constructor ()
      ensures revealed == {}
    {
      revealed := {};
    }

    /** The membership query `is_revealed`; it changes nothing. */
    predicate IsRevealed(taskId: int): (r: bool)
      reads this
      ensures r <==> taskId in revealed
    {
      taskId in revealed
    }

    /** Flips `taskId` and returns its new state. */
    method Toggle(taskId: int) returns (nowRevealed: bool)
      modifies this
      ensures revealed == Toggled(old(revealed), taskId)
      ensures nowRevealed <==> IsRevealed(taskId)
      ensures nowRevealed <==> !old(IsRevealed(taskId))
    {
      if taskId in revealed {
        revealed := revealed - {taskId};
        return false;
      }
      revealed := revealed + {taskId};
      return true;
    }

    /** Hides `taskId` and leaves every other id alone; a second reset changes nothing. */
    method Reset(taskId: int)
      modifies this
      ensures revealed == old(revealed) - {taskId}
      ensures !IsRevealed(taskId)
    {
      revealed := revealed - {taskId};
    }

    method ClearAll()
      modifies this
      ensures revealed == {}
    {
      revealed := {};
    }
  }

  /** The reveal scenarios of the tests: toggling 1 reveals it and toggling again hides
      it; with 1 and 2 revealed, resetting 1 keeps 2, and clearing hides 2. */
  method RevealScenario() returns (on: bool, off: bool, oneAfterReset: bool, twoAfterReset: bool, twoAfterClear: bool)
    ensures on && !off && !oneAfterReset && twoAfterReset && !twoAfterClear
  {
    var rs := new RevealState();
    on := rs.Toggle(1);
    off := rs.Toggle(1);
    var _ := rs.Toggle(1);
    var _ := rs.Toggle(2);
    rs.Reset(1);
    oneAfterReset, twoAfterReset := rs.IsRevealed(1), rs.IsRevealed(2);
    rs.ClearAll();
    twoAfterClear := rs.IsRevealed(2);
  }
}
