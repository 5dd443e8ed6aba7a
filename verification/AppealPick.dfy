/**
 Picking appeals. An admin supporter takes an appeal under a lock on that appeal, after counting the unclosed
 appeals the admin already holds; a session cancel gives an appeal back under the same lock. The limit is per
 admin, the lock per appeal, so picks by one admin on different appeals interleave freely.

 Each use case is a process that stops at every await; one event serves one lock or database command or
 resumes one process. Closing an appeal is an update of its own: the decision use cases commit it when their
 transaction ends, after their lock is gone.
 */
module AppealPick {
  import opened Options
  import Sets

  datatype Appeal = Appeal(adminId: Option<int>, closed: bool)

  type Appeals = map<int, Appeal>

  datatype UseCase = Pick(adminId: int) | CancelSession

  datatype Result =
    | Fine
    | AppealNotFound
    | AppealAlreadyHasSupporter
    | AppealEmptyAdminSupporter
    | TotalPickedLimitExceeded
    | Failed

  datatype Phase =
    | AwaitLock
    | AwaitAppeal                          // holds the lock, the appeal is being loaded
    | Loaded(appeal: Option<Appeal>)
    | AwaitCount
    | Counted(picked: nat)
    | AwaitWrite
    | Releasing(result: Result)
    | Done(result: Result)

  datatype Process = Process(useCase: UseCase, appealId: int, phase: Phase)

  /** The appeals table, the lock holders, and the running use cases. */
  datatype State = State(appeals: Appeals, locks: map<int, int>, processes: map<int, Process>)

  datatype Event =
    | StartPick(p: int, adminId: int, appealId: int)
    | StartCancel(p: int, appealId: int)
    | Acquire(p: int)
    | GiveUpLock(p: int)
    | ServeAppeal(p: int)
    | ResumeLoaded(p: int)
    | ServeCount(p: int)
    | ResumeCounted(p: int)
    | ServeWrite(p: int)
    | CommandFails(p: int)
    | Release(p: int)
    | OpenAppeal(appealId: int)
    | CloseAppeal(appealId: int, closer: Option<int>)

  // ---------------------------------------------------------------- the transition system

  /** The unclosed appeals of an admin. */
  function Picked(appeals: Appeals, adminId: int): set<int> {
    set x | x in appeals && !appeals[x].closed && appeals[x].adminId == Some(adminId)
  }

  predicate Waits(phase: Phase) {
    phase.AwaitAppeal? || phase.AwaitCount? || phase.AwaitWrite?
  }

  predicate Enabled(s: State, e: Event) {
    match e
    case StartPick(p, _, _) => p !in s.processes
    case StartCancel(p, _) => p !in s.processes
    case OpenAppeal(x) => x !in s.appeals
    case CloseAppeal(x, _) => x in s.appeals
    case _ =>
      e.p in s.processes
      && var Process(_, x, phase) := s.processes[e.p];
         match e
         case Acquire(_) => phase.AwaitLock? && x !in s.locks
         case GiveUpLock(_) => phase.AwaitLock?
         case ServeAppeal(_) => phase.AwaitAppeal?
         case ResumeLoaded(_) => phase.Loaded?
         case ServeCount(_) => phase.AwaitCount? && s.processes[e.p].useCase.Pick?
         case ResumeCounted(_) => phase.Counted?
         case ServeWrite(_) => phase.AwaitWrite?
         case CommandFails(_) => Waits(phase)
         case _ => phase.Releasing?
  }

  /** What a use case does with the appeal it loaded. */
  function AfterLoading(useCase: UseCase, appeal: Option<Appeal>): Phase {
    if appeal.None? then Releasing(AppealNotFound)
    else
      match useCase
      case Pick(_) => if appeal.value.adminId.Some? then Releasing(AppealAlreadyHasSupporter) else AwaitCount
      case CancelSession => if appeal.value.adminId.None? then Releasing(AppealEmptyAdminSupporter) else AwaitWrite
  }

  function AfterCounting(limit: int, picked: nat): Phase {
    if picked >= limit then Releasing(TotalPickedLimitExceeded) else AwaitWrite
  }

  function NewAdmin(useCase: UseCase): Option<int> {
    match useCase
    case Pick(adminId) => Some(adminId)
    case CancelSession => None
  }

  function MoveTo(s: State, p: int, phase: Phase): State
    requires p in s.processes
  {
    s.(processes := s.processes[p := s.processes[p].(phase := phase)])
  }

  function Apply(limit: int, s: State, e: Event): State
    requires Enabled(s, e)
  {
    match e
    case StartPick(p, adminId, x) => s.(processes := s.processes[p := Process(Pick(adminId), x, AwaitLock)])
    case StartCancel(p, x) => s.(processes := s.processes[p := Process(CancelSession, x, AwaitLock)])
    case Acquire(p) => MoveTo(s.(locks := s.locks[s.processes[p].appealId := p]), p, AwaitAppeal)
    case GiveUpLock(p) => MoveTo(s, p, Done(Failed))
    case ServeAppeal(p) =>
      var x := s.processes[p].appealId;
      MoveTo(s, p, Loaded(if x in s.appeals then Some(s.appeals[x]) else None))
    case ResumeLoaded(p) => MoveTo(s, p, AfterLoading(s.processes[p].useCase, s.processes[p].phase.appeal))
    case ServeCount(p) => MoveTo(s, p, Counted(|Picked(s.appeals, s.processes[p].useCase.adminId)|))
    case ResumeCounted(p) => MoveTo(s, p, AfterCounting(limit, s.processes[p].phase.picked))
    case ServeWrite(p) =>
      var Process(useCase, x, _) := s.processes[p];
      var appeals := if x in s.appeals then s.appeals[x := s.appeals[x].(adminId := NewAdmin(useCase))] else s.appeals;
      MoveTo(s.(appeals := appeals), p, Releasing(Fine))
    case CommandFails(p) => MoveTo(s, p, Releasing(Failed))
    case Release(p) =>
      MoveTo(s.(locks := s.locks - {s.processes[p].appealId}), p, Done(s.processes[p].phase.result))
    case OpenAppeal(x) => s.(appeals := s.appeals[x := Appeal(None, false)])
    case CloseAppeal(x, adminId) =>
      var owner := if adminId.Some? then adminId else s.appeals[x].adminId;
      s.(appeals := s.appeals[x := Appeal(owner, true)])
  }

  function Step(limit: int, s: State, e: Event): State {
    if Enabled(s, e) then Apply(limit, s, e) else s
  }

  function Run(limit: int, start: State, events: seq<Event>): State {
    if events == [] then start
    else Step(limit, Run(limit, start, events[..|events| - 1]), events[|events| - 1])
  }

  /** Nothing is running and nothing is locked. */
  predicate Quiet(s: State) {
    s.locks == map[] && s.processes == map[]
  }

  // ---------------------------------------------------------------- the code between two awaits

  class AppealDesk {
    var appeals: map<int, Appeal>
    var locks: map<int, int>
    var processes: map<int, Process>

    ghost function View(): State
      reads this
    {
      State(appeals, locks, processes)
    }

    constructor (appeals: map<int, Appeal>)
      ensures View() == State(appeals, map[], map[])
    {
      this.appeals, locks, processes := appeals, map[], map[];
    }

    /** `RedlockUtil.lock` gets the lock. */
    method AcquireLock(p: int)
      requires Enabled(View(), Acquire(p))
      modifies this
      ensures View() == Apply(0, old(View()), Acquire(p))
    {
      locks := locks[processes[p].appealId := p];
      processes := processes[p := processes[p].(phase := AwaitAppeal)];
    }

    /** `pickAppeal` once the appeal is loaded. */
    method PickLoaded(p: int)
      requires Enabled(View(), ResumeLoaded(p)) && processes[p].useCase.Pick?
      modifies this
      ensures View() == Apply(0, old(View()), ResumeLoaded(p))
    {
      var appeal := processes[p].phase.appeal;
      var next := AwaitCount;
      if appeal == None {
        next := Releasing(AppealNotFound);
      } else if appeal.value.adminId.Some? {
        next := Releasing(AppealAlreadyHasSupporter);
      }
      processes := processes[p := processes[p].(phase := next)];
    }

    /** `pickAppeal` once the picked appeals are counted and the limit is known. */
    method PickCounted(p: int, limit: int)
      requires Enabled(View(), ResumeCounted(p))
      modifies this
      ensures View() == Apply(limit, old(View()), ResumeCounted(p))
    {
      var next := AwaitWrite;
      if processes[p].phase.picked >= limit {
        next := Releasing(TotalPickedLimitExceeded);
      }
      processes := processes[p := processes[p].(phase := next)];
    }

    /** `cancelAppealSession` once the appeal is loaded. */
    method CancelLoaded(p: int)
      requires Enabled(View(), ResumeLoaded(p)) && processes[p].useCase.CancelSession?
      modifies this
      ensures View() == Apply(0, old(View()), ResumeLoaded(p))
    {
      var appeal := processes[p].phase.appeal;
      var next := AwaitWrite;
      if appeal == None {
        next := Releasing(AppealNotFound);
      } else if appeal.value.adminId.None? {
        next := Releasing(AppealEmptyAdminSupporter);
      }
      processes := processes[p := processes[p].(phase := next)];
    }

    /** The database executes `setAdminSupporter` of a process. */
    method SetAdminSupporter(p: int)
      requires Enabled(View(), ServeWrite(p))
      modifies this
      ensures View() == Apply(0, old(View()), ServeWrite(p))
    {
      var appealId := processes[p].appealId;
      if appealId in appeals {
        var adminId := None;
        if processes[p].useCase.Pick? {
          adminId := Some(processes[p].useCase.adminId);
        }
        appeals := appeals[appealId := appeals[appealId].(adminId := adminId)];
      }
      processes := processes[p := processes[p].(phase := Releasing(Fine))];
    }

    /** The lock is released however the callback ended. */
    method ReleaseLock(p: int)
      requires Enabled(View(), Release(p))
      modifies this
      ensures View() == Apply(0, old(View()), Release(p))
    {
      locks := locks - {processes[p].appealId};
      processes := processes[p := processes[p].(phase := Done(processes[p].phase.result))];
    }

    /** `closeAppeal` with a payload that may name the deciding admin. */
    method Close(appealId: int, adminId: Option<int>)
      requires Enabled(View(), CloseAppeal(appealId, adminId))
      modifies this
      ensures View() == Apply(0, old(View()), CloseAppeal(appealId, adminId))
    {
      var appeal := appeals[appealId].(closed := true);
      if adminId.Some? {
        appeal := appeal.(adminId := adminId);
      }
      appeals := appeals[appealId := appeal];
    }
  }

  // ---------------------------------------------------------------- the pick bound

  /** The picks of an admin that have started and not ended. */
  function InFlight(s: State, adminId: int): set<int> {
    set p | p in s.processes && s.processes[p].useCase == Pick(adminId) && !s.processes[p].phase.Done?
  }

  /** The count has let the process through and its write is still to come. */
  predicate WillWrite(limit: int, process: Process) {
    process.phase.AwaitWrite? || (process.phase.Counted? && process.phase.picked < limit)
  }

  function Writers(limit: int, s: State, adminId: int): set<int> {
    set p | p in s.processes && s.processes[p].useCase == Pick(adminId) && WillWrite(limit, s.processes[p])
  }

  /** What an admin holds and is about to be given. */
  function Committed(limit: int, s: State, adminId: int): nat {
    |Picked(s.appeals, adminId)| + |Writers(limit, s, adminId)|
  }

  /** Only one process changed, and the picks about to write lost nobody but possibly it. */
  lemma WritersAfterMove(limit: int, s: State, t: State, p: int, adminId: int)
    requires p in t.processes && t.processes == s.processes[p := t.processes[p]]
    ensures |Writers(limit, t, adminId)|
            == |Writers(limit, s, adminId)|
               + (if p in Writers(limit, t, adminId) then 1 else 0)
               - (if p in Writers(limit, s, adminId) then 1 else 0)
  {
    Sets.OneElementChange(Writers(limit, s, adminId), Writers(limit, t, adminId), p);
  }

  lemma PickedAfterUpdate(appeals: Appeals, x: int, appeal: Appeal, adminId: int)
    ensures |Picked(appeals[x := appeal], adminId)|
            == |Picked(appeals, adminId)|
               + (if !appeal.closed && appeal.adminId == Some(adminId) then 1 else 0)
               - (if x in Picked(appeals, adminId) then 1 else 0)
  {
    Sets.OneElementChange(Picked(appeals, adminId), Picked(appeals[x := appeal], adminId), x);
  }

  lemma WritersAreInFlight(limit: int, s: State, adminId: int)
    ensures |Writers(limit, s, adminId)| <= |InFlight(s, adminId)|
  {
    forall p | p in Writers(limit, s, adminId) ensures p in InFlight(s, adminId) {
      assert !s.processes[p].phase.Done?;
    }
    Sets.SubsetIsNoLarger(Writers(limit, s, adminId), InFlight(s, adminId));
  }

  /** A pick passes the count only while the admin holds fewer than the limit. */
  lemma CountKeepsBound(limit: int, s: State, p: int, adminId: int, concurrent: nat)
    requires limit >= 1 && Enabled(s, ServeCount(p))
    requires Committed(limit, s, adminId) <= limit - 1 + concurrent
    requires |InFlight(Step(limit, s, ServeCount(p)), adminId)| <= concurrent
    ensures Committed(limit, Step(limit, s, ServeCount(p)), adminId) <= limit - 1 + concurrent
  {
    var t := Step(limit, s, ServeCount(p));
    WritersAfterMove(limit, s, t, p, adminId);
    if p in Writers(limit, t, adminId) {
      WritersAreInFlight(limit, t, adminId);
    }
  }

  lemma WriteKeepsCommitted(limit: int, s: State, p: int, adminId: int)
    requires Enabled(s, ServeWrite(p))
    ensures Committed(limit, Step(limit, s, ServeWrite(p)), adminId) <= Committed(limit, s, adminId)
  {
    var t, x := Step(limit, s, ServeWrite(p)), s.processes[p].appealId;
    WritersAfterMove(limit, s, t, p, adminId);
    if x in s.appeals {
      PickedAfterUpdate(s.appeals, x, t.appeals[x], adminId);
    }
  }

  lemma CloseKeepsCommitted(limit: int, s: State, x: int, closer: Option<int>, adminId: int)
    requires Enabled(s, CloseAppeal(x, closer))
    ensures Committed(limit, Step(limit, s, CloseAppeal(x, closer)), adminId) <= Committed(limit, s, adminId)
  {
    var t := Step(limit, s, CloseAppeal(x, closer));
    PickedAfterUpdate(s.appeals, x, t.appeals[x], adminId);
    assert Writers(limit, t, adminId) == Writers(limit, s, adminId);
  }

  lemma StepKeepsBound(limit: int, s: State, e: Event, adminId: int, concurrent: nat)
    requires limit >= 1
    requires Committed(limit, s, adminId) <= limit - 1 + concurrent
    requires |InFlight(Step(limit, s, e), adminId)| <= concurrent
    ensures Committed(limit, Step(limit, s, e), adminId) <= limit - 1 + concurrent
  {
    if Enabled(s, e) {
      var t := Step(limit, s, e);
      match e
      case ServeCount(p) => CountKeepsBound(limit, s, p, adminId, concurrent);
      case ServeWrite(p) => WriteKeepsCommitted(limit, s, p, adminId);
      case CloseAppeal(x, closer) => CloseKeepsCommitted(limit, s, x, closer, adminId);
      case OpenAppeal(x) =>
        PickedAfterUpdate(s.appeals, x, t.appeals[x], adminId);
        assert Writers(limit, t, adminId) == Writers(limit, s, adminId);
      case _ => WritersAfterMove(limit, s, t, e.p, adminId);
    }
  }

  lemma {:induction false} RunKeepsBound(limit: int, start: State, events: seq<Event>, adminId: int,
                                         concurrent: nat)
    requires limit >= 1 && Quiet(start) && |Picked(start.appeals, adminId)| <= limit - 1 + concurrent
    requires forall i :: 0 <= i <= |events| ==> |InFlight(Run(limit, start, events[..i]), adminId)| <= concurrent
    ensures Committed(limit, Run(limit, start, events), adminId) <= limit - 1 + concurrent
    decreases |events|
  {
    if events == [] {
      assert Writers(limit, start, adminId) == {};
    } else {
      var n := |events| - 1;
      assert forall i :: 0 <= i <= n ==> events[..n][..i] == events[..i];
      RunKeepsBound(limit, start, events[..n], adminId, concurrent);
      assert events[..|events|] == events;
      StepKeepsBound(limit, Run(limit, start, events[..n]), events[n], adminId, concurrent);
    }
  }

  /** In every interleaving of picks, session cancels, openings and closes: an admin with never more than
      `concurrent` picks at once never holds more than limit - 1 + concurrent unclosed appeals. */
  lemma PickBound(limit: int, start: State, events: seq<Event>, adminId: int, concurrent: nat)
    requires limit >= 1 && Quiet(start) && |Picked(start.appeals, adminId)| <= limit - 1 + concurrent
    requires forall i :: 0 <= i <= |events| ==> |InFlight(Run(limit, start, events[..i]), adminId)| <= concurrent
    ensures |Picked(Run(limit, start, events).appeals, adminId)| <= limit - 1 + concurrent
  {
    RunKeepsBound(limit, start, events, adminId, concurrent);
  }

  lemma RunSteps(limit: int, start: State, events: seq<Event>, e: Event)
    ensures Run(limit, start, events + [e]) == Step(limit, Run(limit, start, events), e)
  {
  }

  // ---------------------------------------------------------------- one use case on its own

  /** How a pick ends that nothing interrupts. */
  function PickResult(limit: int, appeals: Appeals, adminId: int, x: int): Result {
    if x !in appeals then AppealNotFound
    else if appeals[x].adminId.Some? then AppealAlreadyHasSupporter
    else if |Picked(appeals, adminId)| >= limit then TotalPickedLimitExceeded
    else Fine
  }

  function CancelResult(appeals: Appeals, x: int): Result {
    if x !in appeals then AppealNotFound
    else if appeals[x].adminId.None? then AppealEmptyAdminSupporter
    else Fine
  }

  function ResultOf(limit: int, appeals: Appeals, useCase: UseCase, x: int): Result {
    match useCase
    case Pick(adminId) => PickResult(limit, appeals, adminId, x)
    case CancelSession => CancelResult(appeals, x)
  }

  function Loading(p: int, useCase: UseCase, x: int): seq<Event> {
    [if useCase.Pick? then StartPick(p, useCase.adminId, x) else StartCancel(p, x), Acquire(p), ServeAppeal(p)]
  }

  function Deciding(p: int): seq<Event> {
    [ResumeLoaded(p), ServeCount(p), ResumeCounted(p)]
  }

  /** Every event of a use case, in order; those that it or an early refusal leaves out change nothing. */
  function Whole(p: int, useCase: UseCase, x: int): seq<Event> {
    Loading(p, useCase, x) + Deciding(p) + [ServeWrite(p), Release(p)]
  }

  /** Process `p` has loaded its appeal under the lock. */
  function AfterFind(s: State, p: int, useCase: UseCase, x: int): State {
    State(s.appeals, s.locks[x := p],
          s.processes[p := Process(useCase, x, Loaded(if x in s.appeals then Some(s.appeals[x]) else None))])
  }

  /** It knows its result. */
  function AfterDeciding(s: State, p: int, useCase: UseCase, x: int, result: Result): State {
    State(s.appeals, s.locks[x := p],
          s.processes[p := Process(useCase, x, if result.Fine? then AwaitWrite else Releasing(result))])
  }

  /** It is done and the lock of its appeal is back. */
  function AfterEnding(s: State, p: int, useCase: UseCase, x: int, result: Result): State
    requires result.Fine? ==> x in s.appeals
  {
    State(if result.Fine? then s.appeals[x := Appeal(NewAdmin(useCase), s.appeals[x].closed)] else s.appeals,
          s.locks, s.processes[p := Process(useCase, x, Done(result))])
  }

  lemma RunThree(limit: int, s: State, a: Event, b: Event, c: Event)
    ensures Run(limit, s, [a, b, c]) == Step(limit, Step(limit, Step(limit, s, a), b), c)
  {
    RunSteps(limit, s, [], a);
    RunSteps(limit, s, [a], b);
    RunSteps(limit, s, [a, b], c);
    assert [] + [a] == [a] && [a] + [b] == [a, b] && [a, b] + [c] == [a, b, c];
  }

  lemma FindsAlone(limit: int, s: State, p: int, useCase: UseCase, x: int)
    requires p in s.processes && s.processes[p] == Process(useCase, x, AwaitLock) && x !in s.locks
    ensures Step(limit, Step(limit, s, Acquire(p)), ServeAppeal(p)) == AfterFind(s, p, useCase, x)
  {
    var s1 := Step(limit, s, Acquire(p));
    assert s1 == State(s.appeals, s.locks[x := p], s.processes[p := Process(useCase, x, AwaitAppeal)]);
  }

  lemma LoadsAlone(limit: int, s: State, p: int, useCase: UseCase, x: int)
    requires p !in s.processes && x !in s.locks
    ensures Run(limit, s, Loading(p, useCase, x)) == AfterFind(s, p, useCase, x)
  {
    var three := Loading(p, useCase, x);
    RunThree(limit, s, three[0], three[1], three[2]);
    var started := s.(processes := s.processes[p := Process(useCase, x, AwaitLock)]);
    assert Step(limit, s, three[0]) == started;
    FindsAlone(limit, started, p, useCase, x);
  }

  lemma PickDecides(limit: int, s: State, p: int, adminId: int, x: int)
    ensures var s1 := Step(limit, AfterFind(s, p, Pick(adminId), x), ResumeLoaded(p));
            Step(limit, Step(limit, s1, ServeCount(p)), ResumeCounted(p))
            == AfterDeciding(s, p, Pick(adminId), x, PickResult(limit, s.appeals, adminId, x))
  {
    var s1 := Step(limit, AfterFind(s, p, Pick(adminId), x), ResumeLoaded(p));
    var s2 := Step(limit, s1, ServeCount(p));
    if x in s.appeals && s.appeals[x].adminId.None? {
      assert s2.processes == s.processes[p := Process(Pick(adminId), x, Counted(|Picked(s.appeals, adminId)|))];
    } else {
      assert s2 == s1 == AfterDeciding(s, p, Pick(adminId), x, PickResult(limit, s.appeals, adminId, x));
    }
  }

  lemma CancelDecides(limit: int, s: State, p: int, x: int)
    ensures var s1 := Step(limit, AfterFind(s, p, CancelSession, x), ResumeLoaded(p));
            Step(limit, Step(limit, s1, ServeCount(p)), ResumeCounted(p))
            == AfterDeciding(s, p, CancelSession, x, CancelResult(s.appeals, x))
  {
    var s1 := Step(limit, AfterFind(s, p, CancelSession, x), ResumeLoaded(p));
    assert s1 == AfterDeciding(s, p, CancelSession, x, CancelResult(s.appeals, x));
    assert Step(limit, s1, ServeCount(p)) == s1;
  }

  /** A use case that meets no other event has its result at the write. */
  lemma DecidesAlone(limit: int, s: State, p: int, useCase: UseCase, x: int)
    requires p !in s.processes && x !in s.locks
    ensures Run(limit, s, Loading(p, useCase, x) + Deciding(p))
            == AfterDeciding(s, p, useCase, x, ResultOf(limit, s.appeals, useCase, x))
  {
    RunAppends(limit, s, Loading(p, useCase, x), Deciding(p));
    LoadsAlone(limit, s, p, useCase, x);
    RunThree(limit, AfterFind(s, p, useCase, x), ResumeLoaded(p), ServeCount(p), ResumeCounted(p));
    match useCase
    case Pick(adminId) => PickDecides(limit, s, p, adminId, x);
    case CancelSession => CancelDecides(limit, s, p, x);
  }

  lemma EndsAlone(limit: int, s: State, p: int, useCase: UseCase, x: int, result: Result)
    requires x !in s.locks && (result.Fine? ==> x in s.appeals)
    ensures Step(limit, Step(limit, AfterDeciding(s, p, useCase, x, result), ServeWrite(p)), Release(p))
            == AfterEnding(s, p, useCase, x, result)
  {
    var s1 := Step(limit, AfterDeciding(s, p, useCase, x, result), ServeWrite(p));
    assert s1.processes == s.processes[p := Process(useCase, x, Releasing(result))];
    assert s.locks[x := p] - {x} == s.locks;
  }

  /** A pick or session cancel that meets no other event on its way ends with the result that its appeal and the
      admin's count call for, changes the appeals exactly when it succeeds, then only the admin of its own appeal,
      and always gives its lock back. */
  lemma UseCaseAlone(limit: int, s: State, p: int, useCase: UseCase, x: int)
    requires p !in s.processes && x !in s.locks
    ensures Run(limit, s, Whole(p, useCase, x))
            == AfterEnding(s, p, useCase, x, ResultOf(limit, s.appeals, useCase, x))
  {
    var decided := Loading(p, useCase, x) + Deciding(p);
    DecidesAlone(limit, s, p, useCase, x);
    RunSteps(limit, s, decided, ServeWrite(p));
    RunSteps(limit, s, decided + [ServeWrite(p)], Release(p));
    assert Whole(p, useCase, x) == decided + [ServeWrite(p)] + [Release(p)];
    EndsAlone(limit, s, p, useCase, x, ResultOf(limit, s.appeals, useCase, x));
  }

  lemma {:induction false} RunAppends(limit: int, start: State, first: seq<Event>, second: seq<Event>)
    ensures Run(limit, start, first + second) == Run(limit, Run(limit, start, first), second)
    decreases |second|
  {
    if second == [] {
      assert first + second == first;
    } else {
      var n := |second| - 1;
      assert first + second == first + second[..n] + [second[n]];
      RunSteps(limit, start, first + second[..n], second[n]);
      RunAppends(limit, start, first, second[..n]);
    }
  }

  /** Cancelling the session right after a successful pick restores every appeal. */
  lemma CancelUndoesPick(limit: int, s: State, p: int, q: int, adminId: int, x: int)
    requires p !in s.processes && q !in s.processes && p != q && x !in s.locks
    requires PickResult(limit, s.appeals, adminId, x).Fine?
    ensures var t := Run(limit, s, Whole(p, Pick(adminId), x) + Whole(q, CancelSession, x));
            && t.appeals == s.appeals && t.locks == s.locks
            && q in t.processes && t.processes[q].phase == Done(Fine)
  {
    UseCaseAlone(limit, s, p, Pick(adminId), x);
    RunAppends(limit, s, Whole(p, Pick(adminId), x), Whole(q, CancelSession, x));
    UseCaseAlone(limit, Run(limit, s, Whole(p, Pick(adminId), x)), q, CancelSession, x);
  }

  // ---------------------------------------------------------------- the bound is reached

  /** Appeals 0 to total - 1 exist and are open; the admin holds the first `held`, nobody the others. */
  ghost predicate HoldsFirst(appeals: Appeals, adminId: int, held: nat, total: nat) {
    forall x ::
      && (x in appeals <==> 0 <= x < total)
      && (x in appeals ==> appeals[x] == Appeal(if x < held then Some(adminId) else None, false))
  }

  function Held(adminId: int, held: nat, total: nat): (appeals: Appeals)
    ensures held <= total ==> HoldsFirst(appeals, adminId, held, total)
  {
    map x: int | x in Sets.Below(total) :: Appeal(if x < held then Some(adminId) else None, false)
  }

  /** Pick i of `n` is after appeal first + i; the first `written` have written, the others are about to. */
  ghost predicate Picking(s: State, adminId: int, first: nat, written: nat, n: nat) {
    && (forall i ::
          && (i in s.processes <==> 0 <= i < n)
          && (i in s.processes ==>
                s.processes[i]
                == Process(Pick(adminId), first + i, if i < written then Releasing(Fine) else AwaitWrite)))
    && (forall x :: x in s.locks ==> x < first + n)
  }

  lemma HeldCount(appeals: Appeals, adminId: int, held: nat, total: nat)
    requires held <= total && HoldsFirst(appeals, adminId, held, total)
    ensures |Picked(appeals, adminId)| == held
  {
    assert Picked(appeals, adminId) == Sets.Below(held);
  }

  /** The events of one pick up to its write. */
  function UpToWrite(p: int, adminId: int, x: int): seq<Event> {
    Loading(p, Pick(adminId), x) + Deciding(p)
  }

  lemma PickReachesWrite(limit: int, s: State, p: int, adminId: int, x: int)
    requires p !in s.processes && x !in s.locks
    requires x in s.appeals && s.appeals[x].adminId.None? && |Picked(s.appeals, adminId)| < limit
    ensures Run(limit, s, UpToWrite(p, adminId, x)) == AfterDeciding(s, p, Pick(adminId), x, Fine)
  {
    DecidesAlone(limit, s, p, Pick(adminId), x);
  }

  /** The first `n` picks run up to their writes, one after the other. */
  function AllCounted(adminId: int, first: nat, n: nat): seq<Event> {
    if n == 0 then [] else AllCounted(adminId, first, n - 1) + UpToWrite(n - 1, adminId, first + (n - 1))
  }

  function AllWritten(n: nat): seq<Event> {
    if n == 0 then [] else AllWritten(n - 1) + [ServeWrite(n - 1)]
  }

  /** The admin holds one appeal less than the limit, and `total` more are open. */
  function OneBelowLimit(adminId: int, first: nat, total: nat): State {
    State(Held(adminId, first, first + total), map[], map[])
  }

  lemma OnePick(s: State, n: nat, adminId: int, first: nat)
    requires Picking(s, adminId, first, 0, n)
    ensures var x := first + n;
            && n !in s.processes && x !in s.locks
            && Picking(State(s.appeals, s.locks[x := n], s.processes[n := Process(Pick(adminId), x, AwaitWrite)]),
                       adminId, first, 0, n + 1)
  {
  }

  /** What every pick carries from one count to the next holds after all of them. */
  lemma {:induction false} PicksCarry(limit: int, s: State, adminId: int, first: nat, n: nat,
                                      holds: (nat, State) -> bool)
    requires holds(0, s)
    requires forall i: nat, t ::
               i < n && holds(i, t) ==> holds(i + 1, Run(limit, t, UpToWrite(i, adminId, first + i)))
    ensures holds(n, Run(limit, s, AllCounted(adminId, first, n)))
    decreases n
  {
    if n > 0 {
      PicksCarry(limit, s, adminId, first, n - 1, holds);
      RunAppends(limit, s, AllCounted(adminId, first, n - 1), UpToWrite(n - 1, adminId, first + (n - 1)));
    }
  }

  lemma AllReachWrite(start: State, adminId: int, first: nat, n: nat, total: nat)
    requires n <= total && Quiet(start) && HoldsFirst(start.appeals, adminId, first, first + total)
    ensures var s := Run(first + 1, start, AllCounted(adminId, first, n));
            s.appeals == start.appeals && Picking(s, adminId, first, 0, n)
  {
    var holds := (i: nat, t: State) => t.appeals == start.appeals && Picking(t, adminId, first, 0, i);
    HeldCount(start.appeals, adminId, first, first + total);
    forall i: nat, t | i < n && holds(i, t)
      ensures holds(i + 1, Run(first + 1, t, UpToWrite(i, adminId, first + i)))
    {
      OnePick(t, i, adminId, first);
      PickReachesWrite(first + 1, t, i, adminId, first + i);
    }
    PicksCarry(first + 1, start, adminId, first, n, holds);
  }

  lemma OneWrite(limit: int, s: State, n: nat, adminId: int, first: nat, total: nat)
    requires n < total
    requires HoldsFirst(s.appeals, adminId, first + n, first + total) && Picking(s, adminId, first, n, total)
    ensures var t := Step(limit, s, ServeWrite(n));
            HoldsFirst(t.appeals, adminId, first + n + 1, first + total) && Picking(t, adminId, first, n + 1, total)
  {
  }

  /** What every write carries from one count to the next holds after all of them. */
  lemma {:induction false} WritesCarry(limit: int, s: State, n: nat, holds: (nat, State) -> bool)
    requires holds(0, s)
    requires forall i: nat, t :: i < n && holds(i, t) ==> holds(i + 1, Step(limit, t, ServeWrite(i)))
    ensures holds(n, Run(limit, s, AllWritten(n)))
    decreases n
  {
    if n > 0 {
      WritesCarry(limit, s, n - 1, holds);
      RunSteps(limit, s, AllWritten(n - 1), ServeWrite(n - 1));
    }
  }

  lemma AllWrite(limit: int, s: State, adminId: int, first: nat, n: nat, total: nat)
    requires n <= total
    requires HoldsFirst(s.appeals, adminId, first, first + total) && Picking(s, adminId, first, 0, total)
    ensures var t := Run(limit, s, AllWritten(n));
            HoldsFirst(t.appeals, adminId, first + n, first + total) && Picking(t, adminId, first, n, total)
  {
    var holds := (i: nat, t: State) =>
      HoldsFirst(t.appeals, adminId, first + i, first + total) && Picking(t, adminId, first, i, total);
    forall i: nat, t | i < n && holds(i, t) ensures holds(i + 1, Step(limit, t, ServeWrite(i))) {
      OneWrite(limit, t, i, adminId, first, total);
    }
    WritesCarry(limit, s, n, holds);
  }

  /** Every process of a run was started by one of its events. */
  lemma {:induction false} OnlyStarted(limit: int, start: State, events: seq<Event>, ids: set<int>)
    requires start.processes == map[]
    requires forall e :: e in events && (e.StartPick? || e.StartCancel?) ==> e.p in ids
    ensures Run(limit, start, events).processes.Keys <= ids
    decreases |events|
  {
    if events != [] {
      OnlyStarted(limit, start, events[..|events| - 1], ids);
      assert events[|events| - 1] in events;
    }
  }

  predicate StartsWithin(e: Event, n: nat) {
    (e.StartPick? || e.StartCancel?) ==> 0 <= e.p < n
  }

  lemma {:induction false} StartsBelow(adminId: int, first: nat, n: nat)
    ensures forall e :: e in AllCounted(adminId, first, n) ==> StartsWithin(e, n)
    decreases n
  {
    if n > 0 {
      var before, six := AllCounted(adminId, first, n - 1), UpToWrite(n - 1, adminId, first + (n - 1));
      StartsBelow(adminId, first, n - 1);
      forall e | e in AllCounted(adminId, first, n) ensures StartsWithin(e, n) {
        assert e in before || e in six;
        assert e in before ==> StartsWithin(e, n - 1);
      }
    }
  }

  lemma {:induction false} WritesStartNothing(n: nat)
    ensures forall e :: e in AllWritten(n) ==> e.ServeWrite?
    decreases n
  {
    if n > 0 {
      WritesStartNothing(n - 1);
    }
  }

  lemma FewInFlight(limit: int, start: State, events: seq<Event>, n: nat, adminId: int)
    requires start.processes == map[]
    requires forall e :: e in events ==> StartsWithin(e, n)
    ensures |InFlight(Run(limit, start, events), adminId)| <= n
  {
    assert forall e :: e in events && (e.StartPick? || e.StartCancel?) ==> e.p in Sets.Below(n) by {
      assert forall e :: e in events ==> StartsWithin(e, n);
    }
    OnlyStarted(limit, start, events, Sets.Below(n));
    Sets.SubsetIsNoLarger(InFlight(Run(limit, start, events), adminId), Sets.Below(n));
  }

  /** All picks pass the count before any of them writes. */
  function AllAtOnce(adminId: int, first: nat, n: nat): seq<Event> {
    AllCounted(adminId, first, n) + AllWritten(n)
  }

  lemma FewAllAlong(limit: int, start: State, adminId: int, first: nat, n: nat, i: nat)
    requires start.processes == map[] && i <= |AllAtOnce(adminId, first, n)|
    ensures |InFlight(Run(limit, start, AllAtOnce(adminId, first, n)[..i]), adminId)| <= n
  {
    StartsBelow(adminId, first, n);
    WritesStartNothing(n);
    var events := AllAtOnce(adminId, first, n)[..i];
    forall e | e in events ensures StartsWithin(e, n) {
      assert e in AllAtOnce(adminId, first, n);
      assert e in AllCounted(adminId, first, n) || e in AllWritten(n);
    }
    FewInFlight(limit, start, events, n, adminId);
  }

  lemma AllAreHeld(adminId: int, first: nat, n: nat)
    ensures var start := OneBelowLimit(adminId, first, n);
            && |Picked(start.appeals, adminId)| == first
            && |Picked(Run(first + 1, start, AllAtOnce(adminId, first, n)).appeals, adminId)| == first + n
  {
    var start, counted := OneBelowLimit(adminId, first, n), AllCounted(adminId, first, n);
    AllReachWrite(start, adminId, first, n, n);
    AllWrite(first + 1, Run(first + 1, start, counted), adminId, first, n, n);
    RunAppends(first + 1, start, counted, AllWritten(n));
    HeldCount(start.appeals, adminId, first, first + n);
    HeldCount(Run(first + 1, start, AllAtOnce(adminId, first, n)).appeals, adminId, first + n, first + n);
  }

  /** From a quiet start below the limit, with never more than `concurrent` picks of the admin at once, the run
      leaves the admin with limit - 1 + concurrent appeals. */
  ghost predicate ReachesBound(limit: nat, concurrent: nat, adminId: int, start: State, events: seq<Event>) {
    && Quiet(start) && |Picked(start.appeals, adminId)| <= limit - 1
    && (forall i :: 0 <= i <= |events| ==> |InFlight(Run(limit, start, events[..i]), adminId)| <= concurrent)
    && |Picked(Run(limit, start, events).appeals, adminId)| == limit - 1 + concurrent
  }

  /** The bound is exact: for every limit and every degree of concurrency some interleaving reaches it. */
  lemma PickBoundIsReached(limit: nat, concurrent: nat, adminId: int)
    requires limit >= 1
    ensures exists start, events :: ReachesBound(limit, concurrent, adminId, start, events)
  {
    var start := OneBelowLimit(adminId, limit - 1, concurrent);
    var events := AllAtOnce(adminId, limit - 1, concurrent);
    assert ReachesBound(limit, concurrent, adminId, start, events) by {
      AllAreHeld(adminId, limit - 1, concurrent);
      forall i | 0 <= i <= |events| ensures |InFlight(Run(limit, start, events[..i]), adminId)| <= concurrent {
        FewAllAlong(limit, start, adminId, limit - 1, concurrent, i);
      }
    }
  }

  // ---------------------------------------------------------------- who is overwritten

  /** The process is inside its critical section. */
  predicate Inside(phase: Phase) {
    !phase.AwaitLock? && !phase.Done?
  }

  /** No supporter can lose the appeal to a write: it has none, or it is closed. */
  predicate Free(s: State, appealId: int) {
    appealId in s.appeals && (s.appeals[appealId].adminId.None? || s.appeals[appealId].closed)
  }

  /** The pick has seen that the appeal had no admin. */
  predicate SawNoAdmin(phase: Phase) {
    || (phase.Loaded? && phase.appeal.Some? && phase.appeal.value.adminId.None?)
    || phase.AwaitCount? || phase.Counted? || phase.AwaitWrite?
  }

  ghost predicate Sound(s: State, p: int) {
    && (p !in s.processes ==> forall x :: x in s.locks ==> s.locks[x] != p)
    && (p in s.processes ==>
      var Process(useCase, x, phase) := s.processes[p];
      && (Inside(phase) <==> x in s.locks && s.locks[x] == p)
      && (forall y :: y in s.locks && s.locks[y] == p ==> y == x)
      && (useCase.Pick? && SawNoAdmin(phase) ==> Free(s, x)))
  }

  lemma StepKeepsSound(limit: int, s: State, e: Event, p: int)
    requires forall q :: Sound(s, q)
    ensures Sound(Step(limit, s, e), p)
  {
    assert Sound(s, p);
    if Enabled(s, e) && !e.StartPick? && !e.StartCancel? && !e.OpenAppeal? && !e.CloseAppeal? {
      assert Sound(s, e.p);
    }
  }

  lemma {:induction false} RunIsSound(limit: int, start: State, events: seq<Event>, p: int)
    requires Quiet(start)
    ensures Sound(Run(limit, start, events), p)
    decreases |events|
  {
    if events != [] {
      var s := Run(limit, start, events[..|events| - 1]);
      forall q ensures Sound(s, q) {
        RunIsSound(limit, start, events[..|events| - 1], q);
      }
      StepKeepsSound(limit, s, events[|events| - 1], p);
    }
  }

  /** In every interleaving the locks are held exactly by the use cases inside them: no two are inside the lock of one
      appeal, and whoever is done, in whatever way, holds none. When a pick writes, the appeal
      has no admin unless it has been closed since the pick loaded it. */
  lemma PickTakesOnlyFreeAppeals(limit: int, start: State, events: seq<Event>, p: int, q: int)
    requires Quiet(start)
    ensures var s := Run(limit, start, events);
            && (p in s.processes && q in s.processes && s.processes[p].appealId == s.processes[q].appealId ==>
                  Inside(s.processes[p].phase) && Inside(s.processes[q].phase) ==> p == q)
            && (p in s.processes ==>
                  (Inside(s.processes[p].phase) <==> exists x :: x in s.locks && s.locks[x] == p))
            && (Enabled(s, ServeWrite(p)) && s.processes[p].useCase.Pick? ==>
                  var x := s.processes[p].appealId;
                  x in s.appeals && (s.appeals[x].adminId.None? || s.appeals[x].closed))
  {
    RunIsSound(limit, start, events, p);
    RunIsSound(limit, start, events, q);
  }

  /** The admin that the latest decision named, if one committed on the appeal of process `p` since that appeal
      was loaded. */
  function DeciderInside(limit: int, start: State, events: seq<Event>, p: int): Option<int> {
    if events == [] then None
    else
      var n := |events| - 1;
      var s, e := Run(limit, start, events[..n]), events[n];
      if e == ServeAppeal(p) && Enabled(s, e) then None
      else if e.CloseAppeal? && Enabled(s, e) && e.closer.Some? && p in s.processes
              && s.processes[p].appealId == e.appealId then e.closer
      else DeciderInside(limit, start, events[..n], p)
  }

  /** The admin the appeal of process `p` had when it was loaded. */
  function SeenAdmin(limit: int, start: State, events: seq<Event>, p: int): Option<int> {
    if events == [] then None
    else
      var n := |events| - 1;
      var s, e := Run(limit, start, events[..n]), events[n];
      if e == ServeAppeal(p) && Enabled(s, e) then
        if s.processes[p].appealId in s.appeals then s.appeals[s.processes[p].appealId].adminId else None
      else SeenAdmin(limit, start, events[..n], p)
  }

  /** The process has loaded an appeal and has not written yet. */
  predicate SawAppeal(phase: Phase) {
    (phase.Loaded? && phase.appeal.Some?) || phase.AwaitCount? || phase.Counted? || phase.AwaitWrite?
  }

  /** Until the write, the admin of the appeal is the one the process has seen or the one a decision named since;
      behind its first test a pick has seen none and a session cancel has seen one. */
  ghost predicate Tracks(s: State, p: int, seen: Option<int>, decider: Option<int>) {
    p in s.processes && SawAppeal(s.processes[p].phase) ==>
      var Process(useCase, x, phase) := s.processes[p];
      && x in s.appeals && s.appeals[x].adminId == (if decider.Some? then decider else seen)
      && (if phase.Loaded? then phase.appeal.value.adminId == seen else useCase.Pick? <==> seen.None?)
  }

  lemma StepKeepsTracks(limit: int, s: State, e: Event, p: int, seen: Option<int>, decider: Option<int>)
    requires (forall q :: Sound(s, q)) && Tracks(s, p, seen, decider)
    requires !(e == ServeAppeal(p) && Enabled(s, e))
    ensures var decides := e.CloseAppeal? && Enabled(s, e) && e.closer.Some? && p in s.processes
                           && s.processes[p].appealId == e.appealId;
            Tracks(Step(limit, s, e), p, seen, if decides then e.closer else decider)
  {
    assert Sound(s, p);
    if e.ServeWrite? && Enabled(s, e) {
      assert Sound(s, e.p);
    }
  }

  lemma {:induction false} RunTracks(limit: int, start: State, events: seq<Event>, p: int)
    requires Quiet(start)
    ensures Tracks(Run(limit, start, events), p, SeenAdmin(limit, start, events, p),
                   DeciderInside(limit, start, events, p))
    decreases |events|
  {
    if events != [] {
      var n := |events| - 1;
      var s, e := Run(limit, start, events[..n]), events[n];
      if !(e == ServeAppeal(p) && Enabled(s, e)) {
        forall q ensures Sound(s, q) {
          RunIsSound(limit, start, events[..n], q);
        }
        RunTracks(limit, start, events[..n], p);
        StepKeepsTracks(limit, s, e, p, SeenAdmin(limit, start, events[..n], p),
                        DeciderInside(limit, start, events[..n], p));
      }
    }
  }

  /** In every interleaving a pick overwrites an admin exactly when a decision that named one committed on the
      appeal after the pick loaded it, and the admin lost is the one that decision named. */
  lemma PickOverwritesIffDecidedInside(limit: int, start: State, events: seq<Event>, p: int)
    requires Quiet(start)
    requires Enabled(Run(limit, start, events), ServeWrite(p))
    requires Run(limit, start, events).processes[p].useCase.Pick?
    ensures var s, decider := Run(limit, start, events), DeciderInside(limit, start, events, p);
            var x := s.processes[p].appealId;
            && x in s.appeals
            && (s.appeals[x].adminId.Some? <==> decider.Some?)
            && s.appeals[x].adminId == decider
  {
    RunTracks(limit, start, events, p);
  }

  /** In every interleaving a session cancel clears another admin than the one it has seen exactly when a decision
      that named another one committed on the appeal after the cancel loaded it, and then it clears that one. */
  lemma CancelClearsOtherIffDecidedInside(limit: int, start: State, events: seq<Event>, p: int)
    requires Quiet(start)
    requires Enabled(Run(limit, start, events), ServeWrite(p))
    requires Run(limit, start, events).processes[p].useCase.CancelSession?
    ensures var s, decider := Run(limit, start, events), DeciderInside(limit, start, events, p);
            var x, seen := s.processes[p].appealId, SeenAdmin(limit, start, events, p);
            && x in s.appeals && s.appeals[x].adminId.Some? && seen.Some?
            && (s.appeals[x].adminId != seen <==> decider.Some? && decider != seen)
            && (s.appeals[x].adminId != seen ==> s.appeals[x].adminId == decider)
  {
    RunTracks(limit, start, events, p);
  }

  lemma CloseThenWrite(limit: int, s: State, p: int, x: int, decider: int, picker: int)
    requires p in s.processes && s.processes[p] == Process(Pick(picker), x, AwaitWrite) && x in s.appeals
    ensures var closed := Step(limit, s, CloseAppeal(x, Some(decider)));
            && x in closed.appeals && closed.appeals[x] == Appeal(Some(decider), true)
            && var written := Step(limit, closed, ServeWrite(p));
               x in written.appeals && written.appeals[x] == Appeal(Some(picker), true)
  {
  }

  /** It happens: a decision that commits between the load and the write of a pick loses its admin to that pick. */
  lemma CloseInsidePickIsOverwritten(limit: int, decider: int, picker: int)
    requires limit >= 1
    ensures exists start, events :: Quiet(start) && 0 in Run(limit, start, events).appeals
              && Run(limit, start, events).appeals[0] == Appeal(Some(decider), true)
              && 0 in Run(limit, start, events + [ServeWrite(0)]).appeals
              && Run(limit, start, events + [ServeWrite(0)]).appeals[0] == Appeal(Some(picker), true)
  {
    var start := State(map[0 := Appeal(None, false)], map[], map[]);
    var waiting, close := UpToWrite(0, picker, 0), CloseAppeal(0, Some(decider));
    assert Picked(start.appeals, picker) == {};
    PickReachesWrite(limit, start, 0, picker, 0);
    CloseThenWrite(limit, Run(limit, start, waiting), 0, 0, decider, picker);
    RunSteps(limit, start, waiting, close);
    RunSteps(limit, start, waiting + [close], ServeWrite(0));
    assert Quiet(start);
  }

  // ---------------------------------------------------------------- what a result means

  /** The write of process `p` was executed in the run. */
  predicate Wrote(limit: int, start: State, events: seq<Event>, p: int) {
    events != []
    && var n := |events| - 1;
       || (events[n] == ServeWrite(p) && Enabled(Run(limit, start, events[..n]), events[n]))
       || Wrote(limit, start, events[..n], p)
  }

  /** A command of process `p` failed in the run, or it did not get the lock. */
  predicate Broke(limit: int, start: State, events: seq<Event>, p: int) {
    events != []
    && var n := |events| - 1;
       || ((events[n] == CommandFails(p) || events[n] == GiveUpLock(p))
           && Enabled(Run(limit, start, events[..n]), events[n]))
       || Broke(limit, start, events[..n], p)
  }

  predicate Has(phase: Phase, result: Result) {
    phase == Releasing(result) || phase == Done(result)
  }

  predicate Told(s: State, p: int, wrote: bool, broke: bool) {
    && (p !in s.processes ==> !wrote && !broke)
    && (p in s.processes ==>
          (wrote <==> Has(s.processes[p].phase, Fine)) && (broke <==> Has(s.processes[p].phase, Failed)))
  }

  lemma StepKeepsTold(limit: int, s: State, e: Event, p: int, wrote: bool, broke: bool)
    requires Told(s, p, wrote, broke)
    ensures Told(Step(limit, s, e), p, wrote || (e == ServeWrite(p) && Enabled(s, e)),
                 broke || ((e == CommandFails(p) || e == GiveUpLock(p)) && Enabled(s, e)))
  {
  }

  lemma {:induction false} RunIsTold(limit: int, start: State, events: seq<Event>, p: int)
    requires start.processes == map[]
    ensures Told(Run(limit, start, events), p, Wrote(limit, start, events, p), Broke(limit, start, events, p))
    decreases |events|
  {
    if events != [] {
      var before := events[..|events| - 1];
      RunIsTold(limit, start, before, p);
      StepKeepsTold(limit, Run(limit, start, before), events[|events| - 1], p, Wrote(limit, start, before, p),
                    Broke(limit, start, before, p));
    }
  }

  /** In every interleaving a use case reports success exactly when its write was executed, and failure exactly when
      one of its commands failed or it did not get the lock. */
  lemma ResultTellsTheWrite(limit: int, start: State, events: seq<Event>, p: int, result: Result)
    requires start.processes == map[]
    requires p in Run(limit, start, events).processes
    requires Run(limit, start, events).processes[p].phase == Done(result)
    ensures result == Fine <==> Wrote(limit, start, events, p)
    ensures result == Failed <==> Broke(limit, start, events, p)
  {
    RunIsTold(limit, start, events, p);
  }

  /** A new appeal is open and free: an admin below the limit who picks it, undisturbed, holds one more. */
  lemma OpenedCanBePicked(limit: int, s: State, p: int, adminId: int, x: int)
    requires x !in s.appeals && p !in s.processes && x !in s.locks && |Picked(s.appeals, adminId)| < limit
    ensures var t := Run(limit, Step(limit, s, OpenAppeal(x)), Whole(p, Pick(adminId), x));
            && p in t.processes && t.processes[p].phase == Done(Fine)
            && |Picked(t.appeals, adminId)| == |Picked(s.appeals, adminId)| + 1
            && |Picked(Step(limit, s, OpenAppeal(x)).appeals, adminId)| == |Picked(s.appeals, adminId)|
  {
    var begun := Step(limit, s, OpenAppeal(x));
    PickedAfterUpdate(s.appeals, x, begun.appeals[x], adminId);
    UseCaseAlone(limit, begun, p, Pick(adminId), x);
    PickedAfterUpdate(begun.appeals, x, Appeal(Some(adminId), false), adminId);
  }
}
