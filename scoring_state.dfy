/** The per-task award latch of src/models/scoring_state.py. */
module ScoringStates {

  class ScoringState {
    /** The task ids that have already been awarded. */
    var awarded: set<int>

    constructor ()
      ensures awarded == {}
    {
      awarded := {};
    }

    /** The membership query `is_awarded`; it changes nothing. */
    predicate IsAwarded(taskId: int): (r: bool)
      reads this
      ensures r <==> taskId in awarded
    {
      taskId in awarded
    }

    /** True exactly on the first award of `taskId`; the id is awarded afterwards and a
        repeated call leaves the set as it was. */
    method MarkAwarded(taskId: int) returns (first: bool)
      modifies this
      ensures first <==> !old(IsAwarded(taskId))
      ensures IsAwarded(taskId)
      ensures awarded == old(awarded) + {taskId}
      ensures !first ==> awarded == old(awarded)
    {
      if taskId in awarded {
        return false;
      }
      awarded := awarded + {taskId};
      return true;
    }

    /** Forgets only `taskId`; nothing happens when it was not awarded. */
    method Reset(taskId: int)
      modifies this
      ensures awarded == old(awarded) - {taskId}
      ensures !IsAwarded(taskId)
    {
      awarded := awarded - {taskId};
    }

    method ClearAll()
      modifies this
      ensures awarded == {}
    {
      awarded := {};
    }
  }

  /** The award-once scenario of the tests: the first mark succeeds, the second does not;
      after a reset of task 0 it can be marked again, and task 1 is untouched. */
  method AwardOnceScenario() returns (first: bool, second: bool, afterReset: bool, otherAwarded: bool)
    ensures first && !second && afterReset && otherAwarded
  {
    var s := new ScoringState();
    var _ := s.MarkAwarded(1);
    first := s.MarkAwarded(0);
    second := s.MarkAwarded(0);
    s.Reset(0);
    afterReset := s.MarkAwarded(0);
    otherAwarded := s.IsAwarded(1);
  }
}
