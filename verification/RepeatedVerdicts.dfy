/**
 When an id can collect two verdicts although it is not submitted again: the exact condition on the state at the
 start. The older object's check must still be able to reach a verdict, and the object in the map must be able to
 get one from a later tick.
 */
module RepeatedVerdicts {
  import opened Options
  import opened TransactionCheck
  import opened TransactionWorker
  import Sets

  predicate Judging(verdict: Verdict) {
    verdict.Succeed? || verdict.Fail?
  }

  /** A check that starts from the object can reach a verdict: it has a row to answer, the service creates one, or
      it decides without rows. */
  predicate Fresh(t: Transaction) {
    || (t.rows.Some? && t.rows.value != [])
    || t.order.sending
    || (t.rows.Some? && Judging(VerdictFor(t, true)))
  }

  /** The running check of the object can reach a verdict. */
  predicate CanJudge(t: Transaction, phase: Phase) {
    match phase
    case Queued => Fresh(t)
    case Polling(left) => t.rows.Some? && (left != {} || Judging(VerdictFor(t, true)))
    case Updating(_) => false
  }

  /** An older object of the id is being checked and can be judged, and so can the object in the map by the next
      tick. */
  predicate CanCollectTwo(s: State, id: int, r: Ref) {
    && OlderUndecided(s, id, r) && CanJudge(s.heap[r], s.checks[r].phase)
    && s.interval && s.entries[id] in s.heap
    && s.heap[s.entries[id]].status == PENDING && Fresh(s.heap[s.entries[id]])
  }

  // ---------------------------------------------------------------- an object that cannot be judged

  /** A tick may still take the object from the map. */
  predicate MayReturn(s: State, id: int, r: Ref) {
    InMap(s, id, r) && r in s.heap && s.heap[r].status == PENDING && (s.interval || s.stage != Started)
  }

  predicate HopelessPhase(t: Transaction, phase: Phase) {
    phase.Updating? || !CanJudge(t, phase)
  }

  /** Neither the running check nor a later one can judge the object. */
  predicate Hopeless(s: State, id: int, r: Ref) {
    && r in s.heap && s.heap[r].id == id && s.heap[r].verdicts == 0
    && (r in s.checks ==> HopelessPhase(s.heap[r], s.checks[r].phase))
    && (MayReturn(s, id, r) ==> !Fresh(s.heap[r]))
  }

  /** A polling check has rows, and the rows it waits for are among them. */
  predicate Fitting(s: State, r: Ref) {
    r in s.checks && r in s.heap && s.checks[r].phase.Polling? ==>
      && s.heap[r].rows.Some?
      && forall i :: i in s.checks[r].phase.left ==> i < |s.heap[r].rows.value|
  }

  lemma AnswerKeepsRows(t: Transaction, row: nat, answer: Answer)
    requires t.rows.Some? && row < |t.rows.value|
    ensures var u := Answered(t, row, answer); u.rows.Some? && |u.rows.value| == |t.rows.value|
  {
  }

  lemma AnswerKeepsFitting(s: State, e: Event, r: Ref)
    requires e.AnswerRow? && Enabled(s, e) && Fitting(s, r)
    ensures Fitting(Step(s, e), r)
  {
    AnswerKeepsRows(s.heap[e.ref], e.row, e.answer);
  }

  lemma StepKeepsFitting(s: State, e: Event, r: Ref)
    requires Allocated(s) && Fitting(s, r)
    ensures Fitting(Step(s, e), r)
  {
    if Enabled(s, e) {
      match e
      case BeginCheck(ref, created) =>
      case AnswerRow(ref, row, answer) => AnswerKeepsFitting(s, e, r);
      case Decide(ref, timedOut) =>
      case _ =>
    }
  }

  lemma {:induction false} RunIsFitting(events: seq<Event>, r: Ref)
    ensures Fitting(Run(events), r)
    decreases |events|
  {
    if events != [] {
      var n := |events| - 1;
      RunIsFitting(events[..n], r);
      RunIsFair(events[..n], r);
      StepKeepsFitting(Run(events[..n]), events[n], r);
    }
  }

  /** Deciding on a hopeless object changes nothing on it. */
  lemma HopelessDecision(t: Transaction, timedOut: bool, local: Option<FailCode>)
    requires t.rows.Some? && !Judging(VerdictFor(t, true))
    ensures Judged(t, VerdictFor(t, timedOut), local) == t
  {
    TimeoutOnlyEndsWaiting(t.rows.value, t.failCode);
  }

  /** Beginning a check of an object that is not fresh ends it at once or leaves it nothing to wait for. */
  lemma HopelessBegin(t: Transaction, created: nat)
    requires !Fresh(t)
    ensures WithRows(t, created) == t
    ensures t.rows.Some? ==> t.rows.value == [] && !Judging(VerdictFor(t, true))
  {
  }

  lemma HopelessTick(s: State, id: int, r: Ref)
    requires NoOverlap(s) && Allocated(s) && Hopeless(s, id, r) && (s.interval || s.stage == Loading)
    ensures Hopeless(BeginTick(s), id, r) && BeginTick(s).heap[r] == s.heap[r]
  {
    if r in PendingRefs(s) {
      assert MayReturn(s, id, r);
    }
  }

  lemma OwnStepKeepsHopeless(s: State, e: Event, id: int, r: Ref)
    requires Fitting(s, r) && Hopeless(s, id, r) && Enabled(s, e)
    requires (e.BeginCheck? || e.AnswerRow? || e.Decide?) && e.ref == r
    ensures Hopeless(Step(s, e), id, r) && Step(s, e).heap[r] == s.heap[r]
  {
    match e
    case BeginCheck(_, created) =>
      HopelessBegin(s.heap[r], created);
      assert Sets.Below(0) == {};
    case Decide(_, timedOut) => HopelessDecision(s.heap[r], timedOut, s.checks[r].failCode);
    case _ =>
  }

  lemma OtherStepKeepsHopeless(s: State, e: Event, id: int, r: Ref)
    requires Allocated(s) && Hopeless(s, id, r) && Enabled(s, e) && !(e.Submit? && e.id == id)
    requires !e.FinishStart? && !e.FireInterval?
    requires e.BeginCheck? || e.AnswerRow? || e.Decide? ==> e.ref != r
    ensures Hopeless(Step(s, e), id, r) && Step(s, e).heap[r] == s.heap[r]
  {
    match e
    case BeginCheck(ref, created) =>
    case AnswerRow(ref, row, answer) =>
    case Decide(ref, timedOut) =>
    case _ =>
  }

  lemma StepKeepsHopeless(s: State, e: Event, id: int, r: Ref)
    requires NoOverlap(s) && Allocated(s) && Fitting(s, r) && Hopeless(s, id, r) && !(e.Submit? && e.id == id)
    ensures Hopeless(Step(s, e), id, r)
  {
    if Enabled(s, e) {
      if e.FinishStart? || (e.FireInterval? && s.done) {
        HopelessTick(s, id, r);
      } else if (e.BeginCheck? || e.AnswerRow? || e.Decide?) && e.ref == r {
        OwnStepKeepsHopeless(s, e, id, r);
      } else if !e.FireInterval? {
        OtherStepKeepsHopeless(s, e, id, r);
      }
    }
  }

  lemma {:induction false} HopelessStays(before: seq<Event>, between: seq<Event>, id: int, r: Ref)
    requires Hopeless(Run(before), id, r) && NeverSubmitted(between, id)
    ensures Hopeless(Run(before + between), id, r)
    decreases |between|
  {
    if between == [] {
      assert before + between == before;
    } else {
      var n := |between| - 1;
      var all := before + between[..n];
      assert forall e :: e in between[..n] ==> e in between;
      HopelessStays(before, between[..n], id, r);
      assert between[n] in between && before + between == all + [between[n]];
      RunSteps(all, between[n]);
      RunNoOverlap(all);
      RunIsFair(all, r);
      RunIsFitting(all, r);
      StepKeepsHopeless(Run(all), between[n], id, r);
    }
  }

  /** The continuation does not submit the id and gives it more than one verdict. */
  ghost predicate CollectsTwo(before: seq<Event>, between: seq<Event>, id: int) {
    NeverSubmitted(between, id) && Verdicts(before + between, id) > Verdicts(before, id) + 1
  }

  /** An object that gets its verdict in the continuation was not hopeless at the start. */
  lemma JudgedWasNotHopeless(before: seq<Event>, between: seq<Event>, id: int, r: Ref)
    requires NeverSubmitted(between, id) && r in JudgedBetween(before, between, id)
    ensures !Hopeless(Run(before), id, r)
  {
    if Hopeless(Run(before), id, r) {
      HopelessStays(before, between, id, r);
      assert false;
    }
  }

  lemma CheckIsInStartedTick(s: State, id: int, r: Ref, q: Ref)
    requires NoOverlap(s) && OneCheckPerId(s) && Allocated(s)
    requires OlderUndecided(s, id, r) && q == s.entries[id]
    ensures s.stage == Started && q in s.heap && s.heap[q].id == id && q !in s.checks
  {
  }

  /** Two verdicts need the condition. */
  lemma TwoNeedCondition(before: seq<Event>, between: seq<Event>, id: int)
    requires CollectsTwo(before, between, id)
    ensures exists r :: CanCollectTwo(Run(before), id, r)
  {
    var s := Run(before);
    VerdictsBetweenSubmissions(before, between, id);
    var judged := JudgedBetween(before, between, id);
    var r :| OlderUndecided(s, id, r) && judged == {r, s.entries[id]};
    var q := s.entries[id];
    RunNoOverlap(before);
    RunOneCheck(before);
    RunIsFair(before, r);
    CheckIsInStartedTick(s, id, r, q);
    assert r in judged && q in judged && Judgeable(s, id, r) && Judgeable(s, id, q);
    JudgedWasNotHopeless(before, between, id, r);
    JudgedWasNotHopeless(before, between, id, q);
    assert CanCollectTwo(s, id, r);
  }

  // ---------------------------------------------------------------- judging an object

  /** The state after further events. */
  function From(s: State, events: seq<Event>): State {
    if events == [] then s else Step(From(s, events[..|events| - 1]), events[|events| - 1])
  }

  lemma FromSteps(s: State, events: seq<Event>, e: Event)
    ensures From(s, events + [e]) == Step(From(s, events), e)
  {
    assert (events + [e])[..|events|] == events;
  }

  lemma FromOne(s: State, e: Event)
    ensures From(s, [e]) == Step(s, e)
  {
    FromSteps(s, [], e);
    assert [] + [e] == [e];
  }

  lemma {:induction false} FromAppends(s: State, first: seq<Event>, second: seq<Event>)
    ensures From(s, first + second) == From(From(s, first), second)
    decreases |second|
  {
    if second == [] {
      assert first + second == first;
    } else {
      var n := |second| - 1;
      assert first + second == first + second[..n] + [second[n]];
      FromSteps(s, first + second[..n], second[n]);
      FromAppends(s, first, second[..n]);
    }
  }

  lemma {:induction false} RunContinues(before: seq<Event>, between: seq<Event>)
    ensures Run(before + between) == From(Run(before), between)
    decreases |between|
  {
    if between == [] {
      assert before + between == before;
    } else {
      var n := |between| - 1;
      assert before + between == before + between[..n] + [between[n]];
      RunSteps(before + between[..n], between[n]);
      RunContinues(before, between[..n]);
    }
  }

  ghost predicate NoSubmit(events: seq<Event>) {
    forall e :: e in events ==> !e.Submit?
  }

  /** Only the object and the check of `r` differ, and the object keeps its identity. */
  ghost predicate OnlyAt(s: State, t: State, r: Ref) {
    && t == s.(heap := t.heap, checks := t.checks)
    && (forall q :: q != r ==> (q in t.heap <==> q in s.heap) && (q in t.checks <==> q in s.checks))
    && (forall q :: q != r && q in s.heap ==> t.heap[q] == s.heap[q])
    && (forall q :: q != r && q in s.checks ==> t.checks[q] == s.checks[q])
    && r in s.heap && r in t.heap && t.heap[r].id == s.heap[r].id
  }

  lemma OnlyAtTwice(s: State, t: State, u: State, r: Ref)
    requires OnlyAt(s, t, r) && OnlyAt(t, u, r)
    ensures OnlyAt(s, u, r)
  {
  }

  /** An answer that passes every check of the transaction's network. */
  function PassingAnswer(t: Transaction): Answer {
    var o := t.order;
    if t.network == TRON then Found(TronTransaction(Sender(o), Receiver(o), o.amount, None, o.createdAt))
    else
      var to := if o.contract.Some? then o.contract.value else Receiver(o);
      Mined(Receipt(Sender(o), to, true, None, [], false, None))
  }

  lemma PassingPasses(t: Transaction, row: nat)
    requires t.rows.Some? && row < |t.rows.value|
    ensures var a := PassingAnswer(t);
            && Fits(t.network, a)
            && Answered(t, row, a).rows == Some(t.rows.value[row := SUCCEED])
            && Answered(t, row, a).verdicts == t.verdicts && Answered(t, row, a).id == t.id
  {
    if t.network == ETH {
      EthResultIsConjunction(PassingAnswer(t).receipt, t.order);
    }
  }

  /** The check of `r` polls, and waits only for rows there are. */
  predicate Polls(s: State, r: Ref) {
    && r in s.checks && r in s.heap && s.checks[r].phase.Polling? && s.heap[r].rows.Some?
    && forall i :: i in s.checks[r].phase.left ==> i < |s.heap[r].rows.value|
  }

  lemma AnswerOne(s: State, r: Ref, row: nat)
    requires Polls(s, r) && row in s.checks[r].phase.left
    ensures var t := Step(s, AnswerRow(r, row, PassingAnswer(s.heap[r])));
            && OnlyAt(s, t, r) && Polls(t, r) && t.checks[r].phase.left == s.checks[r].phase.left - {row}
            && SUCCEED in t.heap[r].rows.value && t.heap[r].verdicts == s.heap[r].verdicts
  {
    PassingPasses(s.heap[r], row);
    assert s.heap[r].rows.value[row := SUCCEED][row] == SUCCEED;
  }

  /** Answers every row the check waits for. */
  lemma {:induction false} AnswerAll(s: State, r: Ref) returns (events: seq<Event>)
    requires Polls(s, r)
    ensures var t := From(s, events);
            && OnlyAt(s, t, r) && Polls(t, r) && t.checks[r].phase.left == {}
            && (s.checks[r].phase.left == {} ==> t == s)
            && (s.checks[r].phase.left != {} ==> SUCCEED in t.heap[r].rows.value)
            && t.heap[r].verdicts == s.heap[r].verdicts
    ensures NoSubmit(events)
    decreases |s.checks[r].phase.left|
  {
    var left := s.checks[r].phase.left;
    if left == {} {
      events := [];
    } else {
      var row := Sets.Member(left);
      var e := AnswerRow(r, row, PassingAnswer(s.heap[r]));
      var t := Step(s, e);
      AnswerOne(s, r, row);
      FromOne(s, e);
      assert |left - {row}| < |left|;
      var rest := AnswerAll(t, r);
      FromAppends(s, [e], rest);
      OnlyAtTwice(s, t, From(t, rest), r);
      events := [e] + rest;
    }
  }

  /** The object got a verdict and its update is on the way. */
  ghost predicate JustJudged(s: State, t: State, r: Ref) {
    && OnlyAt(s, t, r) && t.heap[r].verdicts == 1
    && r in t.checks && t.checks[r].phase.Updating?
  }

  lemma DecideJudges(s: State, r: Ref)
    requires Polls(s, r) && s.checks[r].phase.left == {} && s.heap[r].verdicts == 0
    requires Judging(VerdictFor(s.heap[r], true))
    ensures JustJudged(s, Step(s, Decide(r, true)), r)
  {
  }

  lemma JudgePolling(s: State, r: Ref) returns (events: seq<Event>)
    requires Polls(s, r) && CanJudge(s.heap[r], s.checks[r].phase) && s.heap[r].verdicts == 0
    ensures JustJudged(s, From(s, events), r) && NoSubmit(events)
  {
    var answers := AnswerAll(s, r);
    var t := From(s, answers);
    TimeoutDecides(t.heap[r].rows.value, t.heap[r].failCode, true);
    DecideJudges(t, r);
    FromSteps(s, answers, Decide(r, true));
    OnlyAtTwice(s, t, Step(t, Decide(r, true)), r);
    events := answers + [Decide(r, true)];
  }

  lemma BeginPolls(s: State, r: Ref)
    requires r in s.checks && r in s.heap && s.checks[r].phase.Queued? && Fresh(s.heap[r])
    ensures var t := Step(s, BeginCheck(r, 1));
            && OnlyAt(s, t, r) && Polls(t, r) && CanJudge(t.heap[r], t.checks[r].phase)
            && t.heap[r].verdicts == s.heap[r].verdicts
  {
    var u := WithRows(s.heap[r], 1);
    FreshHasRows(s.heap[r]);
    var left := Sets.Below(|u.rows.value|);
    assert Step(s, BeginCheck(r, 1)) == s.(heap := s.heap[r := u], checks := s.checks[r := Check(Polling(left), None)]);
    assert u.rows.value != [] ==> 0 in left;
  }

  lemma FreshHasRows(t: Transaction)
    requires Fresh(t)
    ensures var u := WithRows(t, 1);
            && u.rows.Some? && u.verdicts == t.verdicts && u.id == t.id
            && (u.rows.value == [] ==> u == t && Judging(VerdictFor(t, true)))
  {
  }

  /** A check that can reach a verdict is brought to it. */
  lemma JudgeNow(s: State, r: Ref) returns (events: seq<Event>)
    requires r in s.checks && r in s.heap && Fitting(s, r)
    requires CanJudge(s.heap[r], s.checks[r].phase) && s.heap[r].verdicts == 0
    ensures JustJudged(s, From(s, events), r) && NoSubmit(events)
  {
    if s.checks[r].phase.Queued? {
      var t := Step(s, BeginCheck(r, 1));
      BeginPolls(s, r);
      FromOne(s, BeginCheck(r, 1));
      var rest := JudgePolling(t, r);
      FromAppends(s, [BeginCheck(r, 1)], rest);
      OnlyAtTwice(s, t, From(t, rest), r);
      events := [BeginCheck(r, 1)] + rest;
    } else {
      events := JudgePolling(s, r);
    }
  }

  // ---------------------------------------------------------------- ending a tick

  lemma ThrowDrops(s: State, r: Ref)
    requires r in s.checks && r in s.heap && (s.checks[r].phase.Queued? || s.checks[r].phase.Updating?)
    ensures var t := Step(s, CheckThrows(r));
            OnlyAt(s, t, r) && t.checks == Drop(s.checks, r) && t.heap == s.heap
  {
  }

  lemma DecideUpdates(s: State, r: Ref)
    requires Polls(s, r) && s.checks[r].phase.left == {}
    ensures var t := Step(s, Decide(r, true));
            OnlyAt(s, t, r) && r in t.checks && t.checks[r].phase.Updating?
  {
    TimeoutDecides(s.heap[r].rows.value, s.heap[r].failCode, true);
  }

  /** Every check can be brought to its end. */
  lemma EndCheck(s: State, r: Ref) returns (events: seq<Event>)
    requires r in s.checks && r in s.heap && Fitting(s, r)
    ensures OnlyAt(s, From(s, events), r) && r !in From(s, events).checks && NoSubmit(events)
  {
    events := [];
    if s.checks[r].phase.Polling? {
      events := AnswerAll(s, r);
      var t := From(s, events);
      DecideUpdates(t, r);
      FromSteps(s, events, Decide(r, true));
      OnlyAtTwice(s, t, Step(t, Decide(r, true)), r);
      events := events + [Decide(r, true)];
    }
    var t := From(s, events);
    ThrowDrops(t, r);
    FromSteps(s, events, CheckThrows(r));
    OnlyAtTwice(s, t, Step(t, CheckThrows(r)), r);
    events := events + [CheckThrows(r)];
  }

  /** No check is left, and everything outside the objects that were being checked is as it was. */
  ghost predicate Drained(s: State, t: State) {
    && t == s.(heap := t.heap, checks := map[])
    && forall q :: q in s.heap && q !in s.checks ==> q in t.heap && t.heap[q] == s.heap[q]
  }

  lemma OneFewerCheck(s: State, t: State, r: Ref)
    requires OnlyAt(s, t, r) && r in s.checks && r !in t.checks
    requires forall q :: q in s.checks ==> q in s.heap && Fitting(s, q)
    ensures t.checks.Keys == s.checks.Keys - {r} && |t.checks.Keys| < |s.checks.Keys|
    ensures forall q :: q in t.checks ==> q in t.heap && Fitting(t, q)
  {
    assert t.checks.Keys == s.checks.Keys - {r};
  }

  /** All running checks can be brought to their end. */
  lemma {:induction false} Drain(s: State) returns (events: seq<Event>)
    requires forall q :: q in s.checks ==> q in s.heap && Fitting(s, q)
    ensures Drained(s, From(s, events)) && NoSubmit(events)
    decreases |s.checks.Keys|
  {
    if s.checks == map[] {
      events := [];
    } else {
      assert s.checks.Keys != {};
      var r := Sets.Member(s.checks.Keys);
      var first := EndCheck(s, r);
      var t := From(s, first);
      OneFewerCheck(s, t, r);
      var rest := Drain(t);
      FromAppends(s, first, rest);
      events := first + rest;
    }
  }

  // ---------------------------------------------------------------- the second verdict

  /** The next tick takes a pending entry. */
  lemma NextTickTakes(s: State, id: int, q: Ref)
    requires s.checks == map[] && s.ticks == 1 && s.interval
    requires InMap(s, id, q) && q in s.heap && s.heap[q].status == PENDING
    ensures var t := Step(Step(s, EndTick), FireInterval);
            && t == s.(done := false, checks := t.checks)
            && q in t.checks && t.checks[q] == Check(Queued, None)
  {
    var ended := Step(s, EndTick);
    assert ended == s.(ticks := 0, done := true);
    assert q in PendingRefs(ended);
  }

  /** From the first verdict to the next tick: the check ends, all others end, the tick ends, the interval fires. */
  lemma ReachNextTick(s: State, id: int, r: Ref, q: Ref) returns (events: seq<Event>)
    requires (forall c :: c in s.checks ==> c in s.heap && Fitting(s, c)) && s.ticks == 1 && s.interval
    requires r in s.checks && s.checks[r].phase.Updating? && q !in s.checks
    requires InMap(s, id, q) && q in s.heap && s.heap[q].status == PENDING
    ensures var t := From(s, events);
            && q in t.heap && t.heap[q] == s.heap[q] && q in t.checks && t.checks[q] == Check(Queued, None)
            && r in t.heap && t.heap[r] == s.heap[r]
    ensures NoSubmit(events)
  {
    var throw := CheckThrows(r);
    var s1 := Step(s, throw);
    ThrowDrops(s, r);
    OneFewerCheck(s, s1, r);
    FromOne(s, throw);
    var drain := Drain(s1);
    FromAppends(s, [throw], drain);
    NextTickTakes(From(s1, drain), id, q);
    FromSteps(s, [throw] + drain, EndTick);
    FromSteps(s, [throw] + drain + [EndTick], FireInterval);
    events := [throw] + drain + [EndTick] + [FireInterval];
  }

  /** The next tick judges the object in the map. */
  lemma JudgeEntry(s: State, id: int, r: Ref, q: Ref) returns (events: seq<Event>)
    requires (forall c :: c in s.checks ==> c in s.heap && Fitting(s, c)) && s.ticks == 1 && s.interval
    requires r in s.checks && s.checks[r].phase.Updating? && q !in s.checks
    requires InMap(s, id, q) && q in s.heap && s.heap[q].status == PENDING && Fresh(s.heap[q])
    requires s.heap[q].verdicts == 0
    ensures var t := From(s, events);
            && q in t.heap && t.heap[q].id == s.heap[q].id && t.heap[q].verdicts == 1
            && r in t.heap && t.heap[r] == s.heap[r]
    ensures NoSubmit(events)
  {
    var next := ReachNextTick(s, id, r, q);
    var judge := JudgeNow(From(s, next), q);
    FromAppends(s, next, judge);
    events := next + judge;
  }

  /** The condition suffices. */
  lemma ConditionGivesTwo(before: seq<Event>, id: int, r: Ref) returns (between: seq<Event>)
    requires CanCollectTwo(Run(before), id, r)
    ensures CollectsTwo(before, between, id)
  {
    var s := Run(before);
    var q := s.entries[id];
    RunNoOverlap(before);
    RunOneCheck(before);
    RunIsFair(before, r);
    RunIsFair(before, q);
    forall c | c in s.checks ensures c in s.heap && Fitting(s, c) {
      RunIsFitting(before, c);
    }
    var first := JudgeNow(s, r);
    var t := From(s, first);
    forall c | c in t.checks ensures c in t.heap && Fitting(t, c) {
      assert c != r ==> Fitting(s, c);
    }
    var second := JudgeEntry(t, id, r, q);
    between := first + second;
    FromAppends(s, first, second);
    RunContinues(before, between);
    BothJudged(before, between, id, r, q);
  }

  lemma BothJudged(before: seq<Event>, between: seq<Event>, id: int, r: Ref, q: Ref)
    requires NoSubmit(between) && r != q
    requires r in Run(before).heap && Run(before).heap[r].verdicts == 0
    requires q in Run(before).heap && Run(before).heap[q].verdicts == 0
    requires var t := Run(before + between);
             && r in t.heap && t.heap[r].id == id && t.heap[r].verdicts == 1
             && q in t.heap && t.heap[q].id == id && t.heap[q].verdicts == 1
    ensures CollectsTwo(before, between, id)
  {
    VerdictsBetweenSubmissions(before, between, id);
    Sets.SubsetIsNoLarger({r, q}, JudgedBetween(before, between, id));
  }

  /** From any moment of any run on, some continuation gives an id two verdicts without submitting it again exactly
      when, at that moment, an older object of the id is under a check that can still judge it, the interval runs,
      and the object in the map is pending and can be judged too. In all other cases every such continuation gives
      at most one. */
  lemma TwoVerdictsIffOlderCheck(before: seq<Event>, id: int)
    ensures (exists between :: CollectsTwo(before, between, id)) <==> exists r :: CanCollectTwo(Run(before), id, r)
  {
    if r :| CanCollectTwo(Run(before), id, r) {
      var between := ConditionGivesTwo(before, id, r);
    }
    if between :| CollectsTwo(before, between, id) {
      TwoNeedCondition(before, between, id);
    }
  }
}
