/**
 What a check decides, told from the history of answers: which status the transaction ends in, which fail code it
 carries, and when nothing is decided. The verdict functions of the worker do not occur in these statements.
 */
module TransactionVerdicts {
  import opened Options
  import opened TransactionCheck
  import opened TransactionWorker

  // ---------------------------------------------------------------- the history of an object

  /** The event answers a row of `r`. */
  predicate AnswersRowOf(s: State, e: Event, r: Ref) {
    e.AnswerRow? && e.ref == r && Enabled(s, e)
  }

  /** The last answer that changed a row of the TRON transaction `r`: anything but a node that has nothing yet. */
  function LastTronAnswer(events: seq<Event>, r: Ref): Option<Answer> {
    if events == [] then None
    else
      var n := |events| - 1;
      if AnswersRowOf(Run(events[..n]), events[n], r) && events[n].answer != NothingFound(false)
      then Some(events[n].answer)
      else LastTronAnswer(events[..n], r)
  }

  /** The fail code `r` was submitted with. */
  function ArrivedCode(events: seq<Event>, r: Ref): Option<FailCode> {
    if events == [] then None
    else
      var n := |events| - 1;
      if events[n].Submit? && Run(events[..n]).next == r then events[n].failCode else ArrivedCode(events[..n], r)
  }

  /** The error of a node, or the refusal of a receipt, in an answer about an ETH transaction. */
  predicate Reports(answer: Answer, order: Order) {
    answer.RpcError? || (answer.Mined? && !PassesEth(answer.receipt, order))
  }

  function ReportedCode(answer: Answer, order: Order): Option<FailCode> {
    match answer
    case RpcError(timeout) => Some(if timeout then RPC_TIMEOUT else RPC_UNKNOW_ERROR)
    case Mined(receipt) => EthResult(receipt, order).errorCode
    case _ => None
  }

  /** The last answer about the ETH transaction `r` that reports something. */
  function LastEthAnswer(events: seq<Event>, r: Ref): Option<Answer> {
    if events == [] then None
    else
      var n := |events| - 1;
      var s := Run(events[..n]);
      if AnswersRowOf(s, events[n], r) && Reports(events[n].answer, s.heap[r].order) then Some(events[n].answer)
      else LastEthAnswer(events[..n], r)
  }

  /** The last receipt refused since the running check of `r` began. */
  function LastRefusal(events: seq<Event>, r: Ref): Option<Receipt> {
    if events == [] then None
    else
      var n := |events| - 1;
      var s, e := Run(events[..n]), events[n];
      if e.BeginCheck? && e.ref == r && Enabled(s, e) then None
      else if AnswersRowOf(s, e, r) && e.answer.Mined? && !PassesEth(e.answer.receipt, s.heap[r].order)
      then Some(e.answer.receipt)
      else LastRefusal(events[..n], r)
  }

  /** The code that the history of `r` leaves on it. */
  function CodeLeft(events: seq<Event>, r: Ref, network: Network, order: Order): Option<FailCode> {
    match network
    case TRON =>
      (match LastTronAnswer(events, r)
       case None => ArrivedCode(events, r)
       case Some(RpcError(_)) => Some(RPC_UNKNOW_ERROR)
       case Some(Found(tron)) => TronResult(tron, order).errorCode
       case Some(_) => Some(TRANSACTION_TIMEOUT))
    case ETH =>
      (match LastEthAnswer(events, r)
       case None => ArrivedCode(events, r)
       case Some(answer) => ReportedCode(answer, order))
  }

  function RefusalCode(events: seq<Event>, r: Ref, order: Order): Option<FailCode> {
    match LastRefusal(events, r)
    case None => None
    case Some(receipt) => EthResult(receipt, order).errorCode
  }

  /** Until its verdict an object carries the code its history leaves, and its check that of the last refusal. */
  ghost predicate Recorded(events: seq<Event>, s: State, r: Ref) {
    r in s.heap && s.heap[r].verdicts == 0 ==>
      && s.heap[r].failCode == CodeLeft(events, r, s.heap[r].network, s.heap[r].order)
      && (r in s.checks && s.checks[r].phase.Polling? && s.heap[r].network == ETH ==>
            s.checks[r].failCode == RefusalCode(events, r, s.heap[r].order))
  }

  lemma TronAnswerCode(t: Transaction, row: nat, answer: Answer)
    requires t.network == TRON && t.rows.Some? && row < |t.rows.value| && Fits(TRON, answer)
    ensures Answered(t, row, answer).failCode
            == match answer
               case RpcError(_) => Some(RPC_UNKNOW_ERROR)
               case Found(tron) => TronResult(tron, t.order).errorCode
               case _ => if answer == NothingFound(false) then t.failCode else Some(TRANSACTION_TIMEOUT)
  {
  }

  lemma EthAnswerCode(t: Transaction, row: nat, check: Check, answer: Answer)
    requires t.network == ETH && t.rows.Some? && row < |t.rows.value| && Fits(ETH, answer)
    ensures Answered(t, row, answer).failCode
            == if Reports(answer, t.order) then ReportedCode(answer, t.order) else t.failCode
    ensures LocalCode(t, check, answer)
            == if answer.Mined? && !PassesEth(answer.receipt, t.order) then EthResult(answer.receipt, t.order).errorCode
               else check.failCode
  {
    if answer.Mined? {
      EthResultIsConjunction(answer.receipt, t.order);
    }
  }

  lemma AnswerStep(s: State, e: Event, r: Ref)
    requires AnswersRowOf(s, e, r)
    ensures var t := Step(s, e);
            && t.heap == s.heap[r := Answered(s.heap[r], e.row, e.answer)]
            && r in t.checks && t.checks[r].phase.Polling?
            && t.checks[r].failCode == LocalCode(s.heap[r], s.checks[r], e.answer)
            && t.heap[r].network == s.heap[r].network && t.heap[r].order == s.heap[r].order
            && t.heap[r].verdicts == s.heap[r].verdicts && Fits(s.heap[r].network, e.answer)
  {
  }

  lemma AnswerIsHistory(events: seq<Event>, e: Event, r: Ref)
    requires AnswersRowOf(Run(events), e, r)
    ensures var order := Run(events).heap[r].order;
            && LastTronAnswer(events + [e], r)
               == (if e.answer == NothingFound(false) then LastTronAnswer(events, r) else Some(e.answer))
            && LastEthAnswer(events + [e], r)
               == (if Reports(e.answer, order) then Some(e.answer) else LastEthAnswer(events, r))
            && ArrivedCode(events + [e], r) == ArrivedCode(events, r)
            && LastRefusal(events + [e], r)
               == if e.answer.Mined? && !PassesEth(e.answer.receipt, order) then Some(e.answer.receipt)
                  else LastRefusal(events, r)
  {
    assert (events + [e])[..|events|] == events;
  }

  lemma TronAnswerIsRecorded(events: seq<Event>, e: Event, r: Ref)
    requires Recorded(events, Run(events), r) && AnswersRowOf(Run(events), e, r) && Run(events).heap[r].network == TRON
    ensures Recorded(events + [e], Step(Run(events), e), r)
  {
    var s := Run(events);
    AnswerStep(s, e, r);
    AnswerIsHistory(events, e, r);
    TronAnswerCode(s.heap[r], e.row, e.answer);
  }

  lemma EthAnswerIsRecorded(events: seq<Event>, e: Event, r: Ref)
    requires Recorded(events, Run(events), r) && AnswersRowOf(Run(events), e, r) && Run(events).heap[r].network == ETH
    ensures Recorded(events + [e], Step(Run(events), e), r)
  {
    var s := Run(events);
    AnswerStep(s, e, r);
    AnswerIsHistory(events, e, r);
    EthAnswerCode(s.heap[r], e.row, s.checks[r], e.answer);
  }

  lemma BeginKeepsCode(s: State, e: Event, r: Ref)
    requires e.BeginCheck? && e.ref == r && Enabled(s, e)
    ensures var t := Step(s, e);
            && r in t.heap && t.heap[r].network == s.heap[r].network && t.heap[r].order == s.heap[r].order
            && t.heap[r].failCode == s.heap[r].failCode && t.heap[r].verdicts == s.heap[r].verdicts
            && (r in t.checks ==> t.checks[r].failCode == None)
  {
  }

  lemma BeginIsHistory(events: seq<Event>, e: Event, r: Ref)
    requires e.BeginCheck? && e.ref == r && Enabled(Run(events), e)
    ensures LastTronAnswer(events + [e], r) == LastTronAnswer(events, r)
    ensures LastEthAnswer(events + [e], r) == LastEthAnswer(events, r)
    ensures ArrivedCode(events + [e], r) == ArrivedCode(events, r)
    ensures LastRefusal(events + [e], r) == None
  {
    assert (events + [e])[..|events|] == events;
  }

  lemma BeginIsRecorded(events: seq<Event>, e: Event, r: Ref)
    requires Recorded(events, Run(events), r) && e.BeginCheck? && e.ref == r && Enabled(Run(events), e)
    ensures Recorded(events + [e], Step(Run(events), e), r)
  {
    BeginKeepsCode(Run(events), e, r);
    BeginIsHistory(events, e, r);
  }

  lemma SubmitIsRecorded(events: seq<Event>, e: Event, r: Ref)
    requires Allocated(Run(events)) && e.Submit? && Run(events).next == r
    requires LastTronAnswer(events, r) == None && LastEthAnswer(events, r) == None
    ensures Recorded(events + [e], Step(Run(events), e), r)
  {
    assert (events + [e])[..|events|] == events;
  }

  /** An object that is not there yet has no history. */
  lemma {:induction false} NoHistory(events: seq<Event>, r: Ref)
    requires r !in Run(events).heap
    ensures LastTronAnswer(events, r) == None && LastEthAnswer(events, r) == None
    decreases |events|
  {
    if events != [] {
      var n := |events| - 1;
      RunIsFair(events[..n], r);
      if r in Run(events[..n]).heap {
        StepKeepsObject(Run(events[..n]), events[n], r);
      }
      NoHistory(events[..n], r);
    }
  }

  /** The other events leave the code of `r` and the history of `r` alone. */
  lemma OtherEventRecords(events: seq<Event>, e: Event, r: Ref)
    requires Allocated(Run(events)) && Recorded(events, Run(events), r) && r in Run(events).heap
    requires !AnswersRowOf(Run(events), e, r)
    requires !(e.BeginCheck? && e.ref == r && Enabled(Run(events), e))
    ensures Recorded(events + [e], Step(Run(events), e), r)
  {
    var s, t := Run(events), Step(Run(events), e);
    assert (events + [e])[..|events|] == events;
    KeepsCode(s, e, r);
    assert CodeLeft(events + [e], r, s.heap[r].network, s.heap[r].order)
        == CodeLeft(events, r, s.heap[r].network, s.heap[r].order);
  }

  lemma DecideKeepsCode(s: State, e: Event, r: Ref)
    requires r in s.heap && e.Decide?
    ensures var t := Step(s, e);
            && r in t.heap && t.heap[r].network == s.heap[r].network && t.heap[r].order == s.heap[r].order
            && t.heap[r].verdicts >= s.heap[r].verdicts
            && (t.heap[r].verdicts == 0 && s.heap[r].verdicts == 0 ==> t.heap[r].failCode == s.heap[r].failCode)
            && (r in t.checks && t.checks[r].phase.Polling? ==> r in s.checks && t.checks[r] == s.checks[r])
  {
  }

  lemma KeepsCode(s: State, e: Event, r: Ref)
    requires Allocated(s) && r in s.heap && !AnswersRowOf(s, e, r) && !(e.BeginCheck? && e.ref == r && Enabled(s, e))
    ensures var t := Step(s, e);
            && r in t.heap && t.heap[r].network == s.heap[r].network && t.heap[r].order == s.heap[r].order
            && t.heap[r].verdicts >= s.heap[r].verdicts
            && (t.heap[r].verdicts == 0 ==> t.heap[r].failCode == s.heap[r].failCode)
            && (r in t.checks && t.checks[r].phase.Polling? ==> r in s.checks && t.checks[r] == s.checks[r])
  {
    if e.Decide? {
      DecideKeepsCode(s, e, r);
    }
  }

  lemma {:induction false} RunIsRecorded(events: seq<Event>, r: Ref)
    ensures Recorded(events, Run(events), r)
    decreases |events|
  {
    if events != [] {
      var n := |events| - 1;
      var before, e := events[..n], events[n];
      var s := Run(before);
      assert before + [e] == events;
      RunIsRecorded(before, r);
      RunIsFair(before, r);
      if r in s.heap {
        if AnswersRowOf(s, e, r) {
          if s.heap[r].network == TRON {
            TronAnswerIsRecorded(before, e, r);
          } else {
            EthAnswerIsRecorded(before, e, r);
          }
        } else if e.BeginCheck? && e.ref == r && Enabled(s, e) {
          BeginIsRecorded(before, e, r);
        } else {
          OtherEventRecords(before, e, r);
        }
      } else {
        StepAllocates(s, e, r);
        if e.Submit? && r == s.next {
          NoHistory(before, r);
          SubmitIsRecorded(before, e, r);
        }
      }
    }
  }

  // ---------------------------------------------------------------- what a decision leaves behind

  /** The transaction got the status, and its update is on the way. */
  ghost predicate Concludes(s: State, t: State, r: Ref, status: Status) {
    && r in s.heap && r in t.heap
    && r in t.checks && t.checks[r].phase == Updating(if status == SUCCEED then Succeed else Fail)
    && t.heap[r].status == status && t.heap[r].verdicts == s.heap[r].verdicts + 1
  }

  /** The transaction is reported unknown and stays as it is. */
  ghost predicate ReportsUnknown(s: State, t: State, r: Ref) {
    && t.heap == s.heap && r in t.checks && t.checks[r].phase == Updating(Unclear)
    && r in s.heap && s.heap[r].status == PENDING
  }

  /** The check ends, and the transaction stays as it is. */
  ghost predicate Waits(s: State, t: State, r: Ref) {
    t.heap == s.heap && r !in t.checks
  }

  /** In every run a check decides SUCCEED exactly when a row has succeeded, and keeps the fail code. */
  lemma SucceedsIffRowSucceeded(events: seq<Event>, r: Ref, timedOut: bool)
    requires Enabled(Run(events), Decide(r, timedOut))
    ensures var s := Run(events);
            var t := Step(s, Decide(r, timedOut));
            && r in t.heap && t.heap[r].rows == s.heap[r].rows
            && (SUCCEED in s.heap[r].rows.value <==> Concludes(s, t, r, SUCCEED))
            && (SUCCEED in s.heap[r].rows.value ==> t.heap[r].failCode == s.heap[r].failCode)
  {
    RunIsFair(events, r);
  }

  lemma TronWaits(s: State, r: Ref)
    requires Enabled(s, Decide(r, false)) && s.heap[r].network == TRON && SUCCEED !in s.heap[r].rows.value
    ensures Waits(s, Step(s, Decide(r, false)), r)
  {
  }

  lemma TronTimesOut(s: State, r: Ref)
    requires Enabled(s, Decide(r, true)) && s.heap[r].network == TRON && SUCCEED !in s.heap[r].rows.value
    requires s.heap[r].status == PENDING
    ensures var t, code := Step(s, Decide(r, true)), s.heap[r].failCode;
            && (Concludes(s, t, r, FAILED) <==> code != Some(RPC_UNKNOW_ERROR))
            && (ReportsUnknown(s, t, r) <==> code == Some(RPC_UNKNOW_ERROR))
            && (code != Some(RPC_UNKNOW_ERROR) ==>
                  t.heap[r].failCode == if code.Some? then code else Some(TRANSACTION_TIMEOUT))
  {
    var t := Step(s, Decide(r, true));
    if s.heap[r].failCode == Some(RPC_UNKNOW_ERROR) {
      assert t.heap == s.heap;
    }
  }

  /** In every run, a TRON check without a succeeded row ends without a decision before the timeout. Past it, the
      transaction fails exactly when the last answer that changed one of its rows was not an error of the node (with
      no such answer: when it was not submitted with that code), carrying the code that answer left; otherwise it is
      reported unknown and stays pending. */
  lemma TronDecision(events: seq<Event>, r: Ref)
    requires Enabled(Run(events), Decide(r, true))
    requires var s := Run(events); s.heap[r].network == TRON && SUCCEED !in s.heap[r].rows.value
    ensures var s, last := Run(events), LastTronAnswer(events, r);
            var early, late := Step(s, Decide(r, false)), Step(s, Decide(r, true));
            var nodeError := if last.Some? then last.value.RpcError?
                             else ArrivedCode(events, r) == Some(RPC_UNKNOW_ERROR);
            && Waits(s, early, r)
            && (Concludes(s, late, r, FAILED) <==> !nodeError)
            && (ReportsUnknown(s, late, r) <==> nodeError)
            && (!nodeError ==>
                  late.heap[r].failCode
                  == match last
                     case None => if ArrivedCode(events, r).Some? then ArrivedCode(events, r)
                                  else Some(TRANSACTION_TIMEOUT)
                     case Some(Found(tron)) => Some(TronCode(tron, s.heap[r].order))
                     case Some(_) => Some(TRANSACTION_TIMEOUT))
  {
    RunIsRecorded(events, r);
    RunIsFair(events, r);
    TronWaits(Run(events), r);
    TronTimesOut(Run(events), r);
  }

  lemma EthDecides(s: State, r: Ref, timedOut: bool)
    requires Enabled(s, Decide(r, timedOut)) && s.heap[r].network == ETH && SUCCEED !in s.heap[r].rows.value
    requires s.heap[r].status == PENDING
    ensures var t, rows := Step(s, Decide(r, timedOut)), s.heap[r].rows.value;
            if FAILED in rows && (UNKNOWN in rows || PENDING !in rows) then
              Concludes(s, t, r, FAILED) && t.heap[r].failCode == Either(s.checks[r].failCode, s.heap[r].failCode)
            else if UNKNOWN in rows && (timedOut || PENDING !in rows) then ReportsUnknown(s, t, r)
            else if timedOut then Concludes(s, t, r, FAILED) && t.heap[r].failCode == Some(TRANSACTION_TIMEOUT)
            else Waits(s, t, r)
  {
    var t, rows := Step(s, Decide(r, timedOut)), s.heap[r].rows.value;
    FailedRows(rows);
    if FAILED !in rows {
      UnknownRows(rows);
    }
    if EthVerdict(rows, timedOut) == Unclear {
      assert t.heap == s.heap;
    }
  }

  lemma UnknownRows(rows: seq<Status>)
    requires SUCCEED !in rows && FAILED !in rows
    ensures AllMatch(rows, UNKNOWN) <==> UNKNOWN in rows && PENDING !in rows
  {
    if UNKNOWN in rows && PENDING !in rows {
      forall i | 0 <= i < |rows| ensures rows[i] == UNKNOWN {
        assert rows[i] in rows;
      }
    }
    if AllMatch(rows, UNKNOWN) {
      assert rows[0] == UNKNOWN;
    }
  }

  /** In every run, an ETH check without a succeeded row fails the transaction when every row has failed, or some rows
      failed and some are unknown, with the code of the last receipt refused in this check or else the last code
      reported; it reports it unknown when all rows are; past the timeout it reports it unknown if a row is, and
      else fails it for the timeout; in all other cases nothing is decided. */
  lemma EthDecision(events: seq<Event>, r: Ref, timedOut: bool)
    requires Enabled(Run(events), Decide(r, timedOut))
    requires var s := Run(events); s.heap[r].network == ETH && SUCCEED !in s.heap[r].rows.value
    ensures var s := Run(events);
            var t, rows := Step(s, Decide(r, timedOut)), s.heap[r].rows.value;
            if FAILED in rows && (UNKNOWN in rows || PENDING !in rows) then
              && Concludes(s, t, r, FAILED)
              && t.heap[r].failCode == (var refusal := RefusalCode(events, r, s.heap[r].order);
                                        if refusal.Some? then refusal
                                        else CodeLeft(events, r, ETH, s.heap[r].order))
            else if UNKNOWN in rows && (timedOut || PENDING !in rows) then ReportsUnknown(s, t, r)
            else if timedOut then Concludes(s, t, r, FAILED) && t.heap[r].failCode == Some(TRANSACTION_TIMEOUT)
            else Waits(s, t, r)
  {
    RunIsRecorded(events, r);
    RunIsFair(events, r);
    EthDecides(Run(events), r, timedOut);
  }

  lemma FailedRows(rows: seq<Status>)
    requires SUCCEED !in rows
    ensures IsTransactionFailed(rows) <==> FAILED in rows && (UNKNOWN in rows || PENDING !in rows)
  {
    AllMatchIsSingleton(rows, FAILED);
    assert forall status :: status in rows <==> status in Occurring(rows);
    if FAILED in rows && UNKNOWN !in rows && PENDING !in rows {
      forall status: Status ensures status in Occurring(rows) <==> status == FAILED {
      }
      assert Occurring(rows) == {FAILED};
    }
    if AllMatch(rows, FAILED) {
      assert FAILED in Occurring(rows) && PENDING !in Occurring(rows);
    }
  }
}
