/** The task cursor of session.py: a current index over a non-empty task list that wraps
    around at both ends. */
module Sessions {
  import opened Wrappers
  import opened Text

  /** What the game rules read of a loaded task: its optional id and its difficulty,
      which is the number of points an award is worth. */
  datatype Task = Task(id: Option<int>, difficulty: int)

  /** `(i + 1) % n`; Python's `%` and Dafny's agree for a positive modulus. */
  function NextIndex(i: int, n: nat): (r: nat)
    requires n > 0
    ensures r < n
    ensures 0 <= i < n - 1 ==> r == i + 1
    ensures i == n - 1 ==> r == 0
  {
    (i + 1) % n
  }

  /** `(i - 1) % n`, which for `i == 0` is `n - 1` in Python as in Dafny. */
  function PrevIndex(i: int, n: nat): (r: nat)
    requires n > 0
    ensures r < n
    ensures 0 < i < n ==> r == i - 1
    ensures i == 0 ==> r == n - 1
  {
    (i - 1) % n
  }

  /** Stepping forward and then back, or back and then forward, restores the index. */
  lemma NextPrevInverse(i: int, n: nat)
    requires 0 <= i < n
    ensures PrevIndex(NextIndex(i, n), n) == i
    ensures NextIndex(PrevIndex(i, n), n) == i
  {
  }

  /** The index after `k` calls of `next_task`. */
  function Advance(i: int, n: nat, k: nat): (r: int)
    requires n > 0
  {
    if k == 0 then i else NextIndex(Advance(i, n, k - 1), n)
  }

  /** Within one lap, `k` steps forward from `i` land on `i + k`, wrapped once. */
  lemma {:induction false} AdvanceWithinLap(i: int, n: nat, k: nat)
    requires 0 <= i < n && k <= n
    ensures Advance(i, n, k) == if i + k < n then i + k else i + k - n
  {
    if k > 0 {
      AdvanceWithinLap(i, n, k - 1);
    }
  }

  /** `len(tasks)` calls of `next_task` come back to the starting task. */
  lemma FullCircle(i: int, n: nat)
    requires 0 <= i < n
    ensures Advance(i, n, n) == i
  {
    AdvanceWithinLap(i, n, n);
  }

  /** Reads "<position> / <total>" back into its two numbers. */
  function ParsePosition(s: string): Option<(nat, nat)>
  {
    var k := DigitRun(s);
    if 0 < k && k + 3 < |s| && s[k..k + 3] == " / " && AllDigits(s[k + 3..]) then
      Some((ParseNat(s[..k]), ParseNat(s[k + 3..])))
    else None
  }

  lemma ParseJoined(a: string, b: string)
    requires |a| > 0 && |b| > 0 && AllDigits(a) && AllDigits(b)
    ensures ParsePosition(a + " / " + b) == Some((ParseNat(a), ParseNat(b)))
  {
    var r := a + (" / " + b);
    assert r == a + " / " + b;
    DigitRunOf(a, " / " + b);
    var k := DigitRun(r);
    assert k == |a|;
    assert r[..k] == a;
    assert r[k..] == " / " + b;
    assert r[k..][..3] == " / ";
    assert r[k..k + 3] == " / ";
    assert r[k + 3..] == b;
  }

  /** The position text `f"{index + 1} / {total}"`. */
  function PositionText(index: nat, total: nat): (r: string)
    ensures ParsePosition(r) == Some((index + 1, total))
  {
    ParseJoined(NatToString(index + 1), NatToString(total));
    ParseNatToString(index + 1);
    ParseNatToString(total);
    NatToString(index + 1) + " / " + NatToString(total)
  }

  class Session {
    const tasks: seq<Task>
    var currentIndex: int

    predicate Valid()
      reads this
    {
      0 <= currentIndex < |tasks|
    }

    constructor (tasks: seq<Task>)
      requires |tasks| > 0
      ensures this.tasks == tasks && currentIndex == 0 && Valid()
    {
      this.tasks := tasks;
      currentIndex := 0;
    }

    /** Construction fails on an empty task list and otherwise starts at the first task. */
    static method Create(tasks: seq<Task>) returns (r: Result<Session>)
      ensures r.Err? <==> tasks == []
      ensures r.Err? ==> r.error == "Cannot create session with empty task list"
      ensures r.Ok? ==> fresh(r.value) && r.value.tasks == tasks && r.value.currentIndex == 0 && r.value.Valid()
    {
      if tasks == [] {
        return Err("Cannot create session with empty task list");
      }
      var s := new Session(tasks);
      return Ok(s);
    }

    method NextTask()
      requires |tasks| > 0
      modifies this`currentIndex
      ensures currentIndex == NextIndex(old(currentIndex), |tasks|)
      ensures Valid()
      ensures old(IsLastTask()) ==> IsFirstTask()
    {
      currentIndex := (currentIndex + 1) % |tasks|;
    }

    method PrevTask()
      requires |tasks| > 0
      modifies this`currentIndex
      ensures currentIndex == PrevIndex(old(currentIndex), |tasks|)
      ensures Valid()
      ensures old(IsFirstTask()) ==> IsLastTask()
    {
      currentIndex := (currentIndex - 1) % |tasks|;
    }

    function CurrentTask(): (t: Task)
      requires Valid()
      reads this
      ensures t == tasks[currentIndex] && t in tasks
    {
      tasks[currentIndex]
    }

    /** "<index + 1> / <number of tasks>", which reads back as those two numbers. */
    function GetPositionInfo(): (r: string)
      requires Valid()
      reads this
      ensures ParsePosition(r) == Some((currentIndex + 1, |tasks|))
    {
      PositionText(currentIndex, |tasks|)
    }

    /** The first task is the one that `prev_task` wraps around from. */
    predicate IsFirstTask(): (r: bool)
      reads this
      ensures Valid() ==> (r <==> PrevIndex(currentIndex, |tasks|) == |tasks| - 1)
    {
      currentIndex == 0
    }

    /** The last task is the one that `next_task` wraps around from. */
    predicate IsLastTask(): (r: bool)
      reads this
      ensures Valid() ==> (r <==> NextIndex(currentIndex, |tasks|) == 0)
    {
      currentIndex == |tasks| - 1
    }
  }

  /** The wraparound scenario of the tests: with three tasks, `prev_task` from the first
      lands on the last and `next_task` from there returns to the first. */
  method WraparoundScenario() returns (afterPrev: int, afterNext: int)
    ensures afterPrev == 2 && afterNext == 0
  {
    var s := new Session([Task(Some(0), 1), Task(Some(1), 1), Task(Some(2), 1)]);
    s.PrevTask();
    afterPrev := s.currentIndex;
    s.NextTask();
    afterNext := s.currentIndex;
  }
}
