/**
 The transaction worker: an interval starts ticks, a tick checks every pending transaction of the process map
 concurrently, and each check folds the answers of the RPC rows and a timeout into a verdict.

 A check stops at every await; one event answers one RPC row, resumes one check, or is an interval firing or a
 submission. Transaction objects are named by references, so that the map, a running check and a later
 submission can share or replace them as in the source.
 */
module TransactionWorker {
  import opened Options
  import opened TransactionCheck
  import Sets

  datatype Network = TRON | ETH

  type Ref = nat

  /**
   A transaction object. `rows` may be missing. The last three fields only record: how many SUCCEED or FAILED
   verdicts the object was given, whether an RPC answer passed every check, and whether it arrived with a row
   already succeeded.
   */
  datatype Transaction = Transaction(
    id: int, network: Network, order: Order, status: Status, rows: Option<seq<Status>>,
    failCode: Option<FailCode>, verdicts: nat, passed: bool, arrivedPassed: bool)

  datatype Phase =
    | Queued                        // taken into the tick, not started
    | Polling(left: set<nat>)       // rows without an answer
    | Updating(verdict: Verdict)    // the order service is updating

  /** A running check with the local fail code of the ETH check. */
  datatype Check = Check(phase: Phase, failCode: Option<FailCode>)

  datatype Stage = NotStarted | Loading | Started

  datatype State = State(
    stage: Stage, interval: bool, done: bool, ticks: nat,
    entries: map<int, Ref>, heap: map<Ref, Transaction>, next: Ref, checks: map<Ref, Check>)

  const INITIAL := State(NotStarted, false, false, 0, map[], map[], 0, map[])

  /** What a row's RPC calls answer. */
  datatype Answer =
    | RpcError(timeout: bool)
    | NothingFound(timedOut: bool)
    | Found(tron: TronTransaction)
    | Mined(receipt: Receipt)

  /** What the order service returns. */
  datatype UpdateResult = Data | Errors(systemUpdateFailed: bool) | Nothing

  datatype Event =
    | Start                                            // first call of `start`
    | Submit(id: int, network: Network, order: Order, status: Status, rows: Option<seq<Status>>,
             failCode: Option<FailCode>)
    | FinishStart                                      // the pending list is in the map; the first tick begins
    | FireInterval
    | Stop
    | BeginCheck(ref: Ref, created: nat)               // `created`: how many rows the service would create
    | AnswerRow(ref: Ref, row: nat, answer: Answer)
    | Decide(ref: Ref, timedOut: bool)
    | UpdateReturns(ref: Ref, result: UpdateResult)
    | CheckThrows(ref: Ref)
    | EndTick

  // ---------------------------------------------------------------- one check

  predicate Succeeded(rows: Option<seq<Status>>) {
    rows.Some? && SUCCEED in rows.value
  }

  /** `createMissingCryptoTransactionStatuses`. */
  function WithRows(t: Transaction, created: nat): Transaction {
    if (t.rows.None? || t.rows.value == []) && t.order.sending
    then t.(rows := Some(seq(created, _ => PENDING)))
    else t
  }

  function SetRow(t: Transaction, row: nat, status: Status): Transaction
    requires t.rows.Some? && row < |t.rows.value|
  {
    t.(rows := Some(t.rows.value[row := status]))
  }

  /** The answer is of the kind the network's check asks for. */
  predicate Fits(network: Network, answer: Answer) {
    match answer
    case Found(_) => network == TRON
    case Mined(_) => network == ETH
    case _ => true
  }

  /** The answer passed every check of its network. */
  predicate Passes(t: Transaction, answer: Answer) {
    match answer
    case Found(tron) => PassesTron(tron, t.order)
    case Mined(receipt) => PassesEth(receipt, t.order)
    case _ => false
  }

  function TronAnswer(t: Transaction, row: nat, answer: Answer): Transaction
    requires t.rows.Some? && row < |t.rows.value|
  {
    match answer
    case RpcError(_) => SetRow(t, row, FAILED).(failCode := Some(RPC_UNKNOW_ERROR))
    case Found(tron) =>
      var r := TronResult(tron, t.order);
      SetRow(t, row, if r.isValid then SUCCEED else FAILED).(failCode := r.errorCode)
    case _ =>
      if answer == NothingFound(true) then SetRow(t, row, FAILED).(failCode := Some(TRANSACTION_TIMEOUT)) else t
  }

  function EthAnswer(t: Transaction, row: nat, answer: Answer): Transaction
    requires t.rows.Some? && row < |t.rows.value|
  {
    match answer
    case RpcError(timeout) =>
      SetRow(t, row, UNKNOWN).(failCode := Some(if timeout then RPC_TIMEOUT else RPC_UNKNOW_ERROR))
    case Mined(receipt) =>
      var r := EthResult(receipt, t.order);
      if r.isValid then SetRow(t, row, SUCCEED) else SetRow(t, row, FAILED).(failCode := r.errorCode)
    case _ => t
  }

  function Answered(t: Transaction, row: nat, answer: Answer): Transaction
    requires t.rows.Some? && row < |t.rows.value|
  {
    var u := if t.network == TRON then TronAnswer(t, row, answer) else EthAnswer(t, row, answer);
    u.(passed := t.passed || Passes(t, answer))
  }

  /** The local fail code after an answer: only an invalid receipt of the ETH check sets it. */
  function LocalCode(t: Transaction, check: Check, answer: Answer): Option<FailCode> {
    if t.network == ETH && answer.Mined? && !EthResult(answer.receipt, t.order).isValid
    then EthResult(answer.receipt, t.order).errorCode
    else check.failCode
  }

  function VerdictFor(t: Transaction, timedOut: bool): Verdict
    requires t.rows.Some?
  {
    if t.network == TRON then TronVerdict(t.rows.value, timedOut, t.failCode) else EthVerdict(t.rows.value, timedOut)
  }

  function Either(first: Option<FailCode>, second: Option<FailCode>): Option<FailCode> {
    if first.Some? then first else second
  }

  /** The fail code a FAILED verdict leaves on the object. */
  function FinalCode(t: Transaction, local: Option<FailCode>): Option<FailCode>
    requires t.rows.Some?
  {
    if t.network == TRON then Either(t.failCode, Some(TRANSACTION_TIMEOUT))
    else if IsTransactionFailed(t.rows.value) then Either(local, t.failCode)
    else Some(TRANSACTION_TIMEOUT)
  }

  function Judged(t: Transaction, verdict: Verdict, local: Option<FailCode>): Transaction
    requires t.rows.Some?
  {
    match verdict
    case Succeed => t.(status := SUCCEED, verdicts := t.verdicts + 1)
    case Fail => t.(status := FAILED, failCode := FinalCode(t, local), verdicts := t.verdicts + 1)
    case _ => t
  }

  // ---------------------------------------------------------------- the transition system

  predicate Cleans(result: UpdateResult) {
    result.Data? || result == Errors(false)
  }

  /** The references of the pending transactions in the map. */
  function PendingRefs(s: State): set<Ref> {
    set id | id in s.entries && s.entries[id] in s.heap && s.heap[s.entries[id]].status == PENDING :: s.entries[id]
  }

  function BeginTick(s: State): State {
    s.(done := false, ticks := s.ticks + 1,
       checks := s.checks + map r | r in PendingRefs(s) :: Check(Queued, None))
  }

  function Drop<T>(m: map<Ref, T>, r: Ref): map<Ref, T> {
    m - {r}
  }

  predicate InPhase(s: State, r: Ref) {
    r in s.checks && r in s.heap
  }

  /** Creating rows, reading the timeout and updating the order can throw; answers cannot. */
  predicate MayThrow(t: Transaction, phase: Phase) {
    match phase
    case Queued => true
    case Polling(left) => left == {} && t.rows.Some? && VerdictFor(t, false) == Wait
    case Updating(_) => true
  }

  predicate Enabled(s: State, e: Event) {
    match e
    case Start => s.stage == NotStarted
    case Submit(_, _, _, _, _, _) => true
    case FinishStart => s.stage == Loading
    case FireInterval => s.interval
    case Stop => true
    case BeginCheck(r, created) => InPhase(s, r) && s.checks[r].phase.Queued?
    case AnswerRow(r, row, answer) =>
      && InPhase(s, r) && s.checks[r].phase.Polling? && row in s.checks[r].phase.left
      && s.heap[r].rows.Some? && row < |s.heap[r].rows.value| && Fits(s.heap[r].network, answer)
    case Decide(r, _) => InPhase(s, r) && s.checks[r].phase == Polling({}) && s.heap[r].rows.Some?
    case UpdateReturns(r, _) => InPhase(s, r) && s.checks[r].phase.Updating?
    case CheckThrows(r) => InPhase(s, r) && MayThrow(s.heap[r], s.checks[r].phase)
    case EndTick => s.ticks > 0 && s.checks == map[]
  }

  function Apply(s: State, e: Event): State
    requires Enabled(s, e)
  {
    match e
    case Start => s.(stage := Loading)
    case Submit(id, network, order, status, rows, failCode) =>
      var t := Transaction(id, network, order, status, rows, failCode, 0, false, Succeeded(rows));
      s.(entries := s.entries[id := s.next], heap := s.heap[s.next := t], next := s.next + 1)
    case FinishStart => BeginTick(s).(stage := Started, interval := true)
    case FireInterval => if s.done then BeginTick(s) else s
    case Stop => s.(interval := false)
    case BeginCheck(r, created) =>
      var t := WithRows(s.heap[r], created);
      if t.rows.None? then s.(checks := Drop(s.checks, r))
      else s.(heap := s.heap[r := t], checks := s.checks[r := Check(Polling(Sets.Below(|t.rows.value|)), None)])
    case AnswerRow(r, row, answer) =>
      var t, check := s.heap[r], s.checks[r];
      s.(heap := s.heap[r := Answered(t, row, answer)],
         checks := s.checks[r := Check(Polling(check.phase.left - {row}), LocalCode(t, check, answer))])
    case Decide(r, timedOut) =>
      var verdict := VerdictFor(s.heap[r], timedOut);
      if verdict == Wait then s.(checks := Drop(s.checks, r))
      else s.(heap := s.heap[r := Judged(s.heap[r], verdict, s.checks[r].failCode)],
              checks := s.checks[r := s.checks[r].(phase := Updating(verdict))])
    case UpdateReturns(r, result) =>
      var entries := if Cleans(result) then s.entries - {s.heap[r].id} else s.entries;
      s.(entries := entries, checks := Drop(s.checks, r))
    case CheckThrows(r) => s.(checks := Drop(s.checks, r))
    case EndTick => s.(ticks := s.ticks - 1, done := true)
  }

  function Step(s: State, e: Event): State {
    if Enabled(s, e) then Apply(s, e) else s
  }

  function Run(events: seq<Event>): State {
    if events == [] then INITIAL else Step(Run(events[..|events| - 1]), events[|events| - 1])
  }

  // ---------------------------------------------------------------- the code between two awaits

  class Worker {
    var stage: Stage
    var interval: bool
    var done: bool
    var transactionProcessMap: map<int, Ref>
    var transactions: map<Ref, Transaction>
    var next: Ref
    var checks: map<Ref, Check>
    ghost var ticks: nat

    ghost function View(): State
      reads this
    {
      State(stage, interval, done, ticks, transactionProcessMap, transactions, next, checks)
    }

    constructor ()
      ensures View() == INITIAL
    {
      stage, interval, done, ticks := NotStarted, false, false, 0;
      transactionProcessMap, transactions, next, checks := map[], map[], 0, map[];
    }

    /** `transactionProcessMap.set` by a submit job, a missing-transaction job or the start. */
    method SetTransaction(id: int, network: Network, order: Order, status: Status, rows: Option<seq<Status>>,
                          failCode: Option<FailCode>)
      modifies this
      ensures View() == Apply(old(View()), Submit(id, network, order, status, rows, failCode))
    {
      transactions := transactions[next := Transaction(id, network, order, status, rows, failCode, 0, false,
                                                       Succeeded(rows))];
      transactionProcessMap := transactionProcessMap[id := next];
      next := next + 1;
    }

    /** The pending transactions of the map, filtered one by one. */
    method FilterPending() returns (refs: set<Ref>)
      ensures refs == PendingRefs(View())
    {
      refs := {};
      var ids := transactionProcessMap.Keys;
      while ids != {}
        invariant ids <= transactionProcessMap.Keys
        invariant refs == set id | id in transactionProcessMap && id !in ids
                                   && transactionProcessMap[id] in transactions
                                   && transactions[transactionProcessMap[id]].status == PENDING
                                :: transactionProcessMap[id]
        decreases |ids|
      {
        ghost var some := Sets.Member(ids);
        var id :| id in ids;
        var ref := transactionProcessMap[id];
        if ref in transactions && transactions[ref].status == PENDING {
          refs := refs + {ref};
        }
        ids := ids - {id};
      }
    }

    /** `checkTransactionStatus` up to its await. */
    method CheckTransactionStatus()
      modifies this
      ensures View() == BeginTick(old(View()))
    {
      done := false;
      ticks := ticks + 1;
      var refs := FilterPending();
      checks := checks + map r | r in refs :: Check(Queued, None);
    }

    /** The callback of the interval. */
    method OnInterval()
      requires Enabled(View(), FireInterval)
      modifies this
      ensures View() == Apply(old(View()), FireInterval)
    {
      if done {
        CheckTransactionStatus();
      }
    }

    /** A receipt check from its last row answer to its next await. */
    method ConcludeReceipt(ref: Ref, timedOut: bool)
      requires Enabled(View(), Decide(ref, timedOut))
      modifies this
      ensures View() == Apply(old(View()), Decide(ref, timedOut))
    {
      var t, local := transactions[ref], checks[ref].failCode;
      var rows := t.rows.value;
      var verdict := Wait;
      if SUCCEED in rows {
        verdict := Succeed;
        t := t.(status := SUCCEED);
      } else if t.network == TRON {
        if timedOut {
          if t.failCode == Some(RPC_UNKNOW_ERROR) {
            verdict := Unclear;
          } else {
            verdict := Fail;
            t := t.(status := FAILED, failCode := if t.failCode.Some? then t.failCode else Some(TRANSACTION_TIMEOUT));
          }
        }
      } else if IsTransactionFailed(rows) {
        verdict := Fail;
        t := t.(status := FAILED, failCode := if local.Some? then local else t.failCode);
      } else if AllMatch(rows, UNKNOWN) {
        verdict := Unclear;
      } else if timedOut {
        if UNKNOWN in rows {
          verdict := Unclear;
        } else {
          verdict := Fail;
          t := t.(status := FAILED, failCode := Some(TRANSACTION_TIMEOUT));
        }
      }
      if verdict == Wait {
        checks := checks - {ref};
      } else {
        if verdict != Unclear {
          t := t.(verdicts := t.verdicts + 1);
        }
        transactions := transactions[ref := t];
        checks := checks[ref := checks[ref].(phase := Updating(verdict))];
      }
    }

    /** `checkAndCleanProcess`, after which the check is over. */
    method CheckAndCleanProcess(ref: Ref, result: UpdateResult)
      requires Enabled(View(), UpdateReturns(ref, result))
      modifies this
      ensures View() == Apply(old(View()), UpdateReturns(ref, result))
    {
      if result.Data? || (result.Errors? && !result.systemUpdateFailed) {
        transactionProcessMap := transactionProcessMap - {transactions[ref].id};
      }
      checks := checks - {ref};
    }

    /** All checks have settled. */
    method FinishTick()
      requires Enabled(View(), EndTick)
      modifies this
      ensures View() == Apply(old(View()), EndTick)
    {
      ticks := ticks - 1;
      done := true;
    }
  }

  // ---------------------------------------------------------------- ticks never overlap

  ghost predicate NoOverlap(s: State) {
    && s.ticks <= 1
    && (s.ticks == 1 ==> !s.done)
    && (s.checks != map[] ==> s.ticks == 1)
    && (s.stage != Started ==> s.ticks == 0 && !s.done && !s.interval)
  }

  lemma StepKeepsNoOverlap(s: State, e: Event)
    requires NoOverlap(s)
    ensures NoOverlap(Step(s, e))
  {
  }

  lemma {:induction false} RunNoOverlap(events: seq<Event>)
    ensures NoOverlap(Run(events))
    decreases |events|
  {
    if events != [] {
      RunNoOverlap(events[..|events| - 1]);
      StepKeepsNoOverlap(Run(events[..|events| - 1]), events[|events| - 1]);
    }
  }

  /** Whatever the intervals, submissions and answers, at most one tick runs, every check belongs to it, and
      `done` is false while it runs. */
  lemma TicksNeverOverlap(events: seq<Event>)
    ensures var s := Run(events);
            && s.ticks <= 1
            && (s.checks != map[] ==> s.ticks == 1)
            && (s.ticks == 1 ==> !s.done)
  {
    RunNoOverlap(events);
  }

  // ---------------------------------------------------------------- verdicts

  /** References are allocated in order, and the map and the checks only use allocated ones. */
  ghost predicate Allocated(s: State) {
    && (forall r :: r in s.heap ==> r < s.next)
    && (forall id :: id in s.entries ==> s.entries[id] in s.heap && s.heap[s.entries[id]].id == id)
    && (forall r :: r in s.checks ==> r in s.heap)
  }

  /** An entry is the newest object of its id. */
  ghost predicate Newest(s: State) {
    forall r :: r in s.heap && s.heap[r].id in s.entries ==> r <= s.entries[s.heap[r].id]
  }

  /** An undecided check sees a pending object without a verdict; a judged object matches its rows; a succeeded
      row has a passing answer behind it. */
  predicate FairObject(t: Transaction) {
    && t.verdicts <= 1
    && (t.verdicts == 1 ==> (t.status == SUCCEED && Succeeded(t.rows)) || (t.status == FAILED && !Succeeded(t.rows)))
    && (Succeeded(t.rows) ==> t.passed || t.arrivedPassed)
  }

  ghost predicate Fair(s: State, r: Ref) {
    r in s.heap ==>
      && FairObject(s.heap[r])
      && (r in s.checks && !s.checks[r].phase.Updating? ==> s.heap[r].status == PENDING && s.heap[r].verdicts == 0)
  }

  lemma StepKeepsHeapRange(s: State, e: Event, r: Ref)
    requires Allocated(s)
    ensures r in Step(s, e).heap ==> r < Step(s, e).next
    ensures r in Step(s, e).checks ==> r in Step(s, e).heap
  {
  }

  lemma HeapKeepsIds(s: State, e: Event, r: Ref)
    requires r in s.heap && !e.Submit?
    ensures r in Step(s, e).heap && Step(s, e).heap[r].id == s.heap[r].id
  {
  }

  lemma StepKeepsEntryIds(s: State, e: Event, id: int)
    requires Allocated(s)
    ensures var t := Step(s, e);
            id in t.entries ==> t.entries[id] in t.heap && t.heap[t.entries[id]].id == id
  {
    if !e.Submit? && id in s.entries {
      HeapKeepsIds(s, e, s.entries[id]);
    }
  }

  lemma StepKeepsAllocated(s: State, e: Event)
    requires Allocated(s)
    ensures Allocated(Step(s, e))
  {
    var t := Step(s, e);
    forall r: Ref ensures (r in t.heap ==> r < t.next) && (r in t.checks ==> r in t.heap) {
      StepKeepsHeapRange(s, e, r);
    }
    forall id | id in t.entries ensures t.entries[id] in t.heap && t.heap[t.entries[id]].id == id {
      StepKeepsEntryIds(s, e, id);
    }
  }

  lemma TickIsFair(s: State, r: Ref)
    requires Allocated(s) && Fair(s, r)
    ensures Fair(BeginTick(s), r)
  {
  }

  lemma BeginIsFair(s: State, ref: Ref, created: nat, r: Ref)
    requires Fair(s, r) && Enabled(s, BeginCheck(ref, created))
    ensures Fair(Step(s, BeginCheck(ref, created)), r)
  {
  }

  lemma AnswerRowIsFair(s: State, ref: Ref, row: nat, answer: Answer, r: Ref)
    requires Fair(s, r) && Enabled(s, AnswerRow(ref, row, answer))
    ensures Fair(Step(s, AnswerRow(ref, row, answer)), r)
  {
  }

  lemma DecideIsFair(s: State, ref: Ref, timedOut: bool, r: Ref)
    requires Fair(s, r) && Enabled(s, Decide(ref, timedOut))
    ensures Fair(Step(s, Decide(ref, timedOut)), r)
  {
  }

  lemma StepKeepsFair(s: State, e: Event, r: Ref)
    requires Allocated(s) && Fair(s, r)
    ensures Fair(Step(s, e), r)
  {
    if Enabled(s, e) {
      match e
      case FinishStart => TickIsFair(s, r);
      case FireInterval => TickIsFair(s, r);
      case BeginCheck(ref, created) => BeginIsFair(s, ref, created, r);
      case AnswerRow(ref, row, answer) => AnswerRowIsFair(s, ref, row, answer, r);
      case Decide(ref, timedOut) => DecideIsFair(s, ref, timedOut, r);
      case _ =>
    }
  }

  lemma {:induction false} RunIsFair(events: seq<Event>, r: Ref)
    ensures Allocated(Run(events)) && Fair(Run(events), r)
    decreases |events|
  {
    if events != [] {
      RunIsFair(events[..|events| - 1], r);
      StepKeepsAllocated(Run(events[..|events| - 1]), events[|events| - 1]);
      StepKeepsFair(Run(events[..|events| - 1]), events[|events| - 1], r);
    }
  }

  /** No submitted transaction carries a row that has already succeeded. */
  ghost predicate SubmittedFresh(events: seq<Event>) {
    forall e :: e in events && e.Submit? ==> !Succeeded(e.rows)
  }

  lemma StepKeepsArrival(s: State, e: Event, r: Ref)
    requires r in s.heap ==> !s.heap[r].arrivedPassed
    requires e.Submit? ==> !Succeeded(e.rows)
    ensures r in Step(s, e).heap ==> !Step(s, e).heap[r].arrivedPassed
  {
    if Enabled(s, e) {
      match e
      case BeginCheck(ref, created) =>
      case AnswerRow(ref, row, answer) =>
      case Decide(ref, timedOut) =>
      case _ =>
    }
  }

  lemma {:induction false} NothingArrivedPassed(events: seq<Event>, r: Ref)
    requires SubmittedFresh(events)
    ensures r in Run(events).heap ==> !Run(events).heap[r].arrivedPassed
    decreases |events|
  {
    if events != [] {
      var n := |events| - 1;
      assert forall e :: e in events[..n] ==> e in events;
      NothingArrivedPassed(events[..n], r);
      assert events[n] in events;
      StepKeepsArrival(Run(events[..n]), events[n], r);
    }
  }

  /** In every run: each map entry gets at most one SUCCEED or FAILED verdict; it is FAILED never while a row has
      succeeded, and SUCCEED only if some RPC answer passed every check, unless the transaction was submitted
      with a row that had succeeded already. */
  lemma VerdictSafety(events: seq<Event>, r: Ref)
    requires r in Run(events).heap
    ensures var t := Run(events).heap[r];
            && t.verdicts <= 1
            && (t.verdicts == 1 ==> t.status == SUCCEED || t.status == FAILED)
            && (t.verdicts == 1 && t.status == SUCCEED ==> t.passed || t.arrivedPassed)
            && (t.verdicts == 1 && t.status == FAILED ==> !Succeeded(t.rows))
            && (SubmittedFresh(events) ==> !t.arrivedPassed)
  {
    RunIsFair(events, r);
    if SubmittedFresh(events) {
      NothingArrivedPassed(events, r);
    }
  }

  function One(b: bool): nat { if b then 1 else 0 }

  /** The event gives a SUCCEED or FAILED verdict to an object of this id. */
  predicate Judges(s: State, e: Event, id: int) {
    e.Decide? && Enabled(s, e) && s.heap[e.ref].id == id && VerdictFor(s.heap[e.ref], e.timedOut) in {Succeed, Fail}
  }

  /** A check decided past the timeout always reaches the order service; before it, a TRON check never fails its
      transaction. */
  lemma TimeoutConcludes(events: seq<Event>, r: Ref)
    ensures var s, e := Run(events), Decide(r, true);
            Enabled(s, e) ==>
              r in Step(s, e).checks && Step(s, e).checks[r].phase.Updating?
              && Step(s, e).checks[r].phase.verdict != Wait
    ensures var s, e := Run(events), Decide(r, false);
            Enabled(s, e) && s.heap[r].network == TRON ==> Step(s, e).heap[r].status != FAILED
  {
    RunIsFair(events, r);
    var s := Run(events);
    if r in s.heap && s.heap[r].rows.Some? {
      TimeoutDecides(s.heap[r].rows.value, s.heap[r].failCode, true);
    }
  }

  /** An event keeps every object's id and only a verdict of its own check adds to an object's verdicts. */
  lemma StepKeepsObject(s: State, e: Event, r: Ref)
    requires Allocated(s) && r in s.heap
    ensures var t := Step(s, e);
            && r in t.heap && t.heap[r].id == s.heap[r].id
            && t.heap[r].verdicts == s.heap[r].verdicts
               + One(Judges(s, e, s.heap[r].id) && e.ref == r)
  {
    if e.Decide? {
      DecideKeepsObject(s, e, r);
    } else if e.AnswerRow? {
      AnswerKeepsObject(s, e, r);
    }
  }

  lemma AnswerKeepsObject(s: State, e: Event, r: Ref)
    requires Allocated(s) && r in s.heap && e.AnswerRow?
    ensures var t := Step(s, e);
            r in t.heap && t.heap[r].id == s.heap[r].id && t.heap[r].verdicts == s.heap[r].verdicts
  {
  }

  lemma DecideKeepsObject(s: State, e: Event, r: Ref)
    requires Allocated(s) && r in s.heap && e.Decide?
    ensures var t := Step(s, e);
            && r in t.heap && t.heap[r].id == s.heap[r].id
            && t.heap[r].verdicts == s.heap[r].verdicts
               + One(Judges(s, e, s.heap[r].id) && e.ref == r)
  {
  }

  lemma StepKeepsJudged(s: State, e: Event, r: Ref)
    requires Allocated(s) && Fair(s, r) && r in s.heap && s.heap[r].verdicts == 1
    ensures r in Step(s, e).heap && Step(s, e).heap[r] == s.heap[r]
  {
    if Enabled(s, e) {
      match e
      case BeginCheck(ref, created) =>
      case AnswerRow(ref, row, answer) =>
      case Decide(ref, timedOut) =>
      case _ =>
    }
  }

  /** A verdict is final: from then on the object's status, rows and fail code never change. */
  lemma {:induction false} VerdictIsFinal(events: seq<Event>, i: nat, r: Ref)
    requires i <= |events| && r in Run(events[..i]).heap && Run(events[..i]).heap[r].verdicts == 1
    ensures r in Run(events).heap && Run(events).heap[r] == Run(events[..i]).heap[r]
    decreases |events|
  {
    if i == |events| {
      assert events[..i] == events;
    } else {
      var n := |events| - 1;
      assert events[..n][..i] == events[..i];
      VerdictIsFinal(events[..n], i, r);
      RunIsFair(events[..n], r);
      StepKeepsJudged(Run(events[..n]), events[n], r);
    }
  }

  // ---------------------------------------------------------------- verdicts and submissions of one id

  function Submissions(events: seq<Event>, id: int): nat {
    if events == [] then 0
    else
      var n := |events| - 1;
      Submissions(events[..n], id) + One(events[n].Submit? && events[n].id == id)
  }

  function Verdicts(events: seq<Event>, id: int): nat {
    if events == [] then 0
    else
      var n := |events| - 1;
      Verdicts(events[..n], id) + One(Judges(Run(events[..n]), events[n], id))
  }

  function ObjectsOf(s: State, id: int): set<Ref> {
    set r | r in s.heap && s.heap[r].id == id
  }

  function JudgedOf(s: State, id: int): set<Ref> {
    set r | r in s.heap && s.heap[r].id == id && s.heap[r].verdicts == 1
  }

  lemma StepAllocates(s: State, e: Event, r: Ref)
    requires Allocated(s) && r !in s.heap
    ensures var t := Step(s, e);
            r in t.heap <==> e.Submit? && r == s.next
    ensures var t := Step(s, e);
            r in t.heap ==> t.heap[r].id == e.id && t.heap[r].verdicts == 0
  {
  }

  lemma StepMembers(s: State, e: Event, id: int, r: Ref)
    requires Allocated(s) && Fair(s, r)
    ensures r in ObjectsOf(Step(s, e), id) <==> r in ObjectsOf(s, id) || (e.Submit? && e.id == id && r == s.next)
    ensures r in JudgedOf(Step(s, e), id) <==> r in JudgedOf(s, id) || (Judges(s, e, id) && r == e.ref)
    ensures e.Submit? ==> s.next !in s.heap
    ensures Judges(s, e, id) && r == e.ref ==> r !in JudgedOf(s, id)
  {
    if r in s.heap {
      StepKeepsObject(s, e, r);
    } else {
      StepAllocates(s, e, r);
    }
  }

  /** An event adds to the objects of an id the one it submits, and to the judged ones the one it judges. */
  lemma StepCounts(s: State, e: Event, id: int)
    requires Allocated(s) && forall r :: Fair(s, r)
    ensures |ObjectsOf(Step(s, e), id)| == |ObjectsOf(s, id)| + One(e.Submit? && e.id == id)
    ensures |JudgedOf(Step(s, e), id)| == |JudgedOf(s, id)| + One(Judges(s, e, id))
  {
    var t := Step(s, e);
    forall r: Ref
      ensures r in ObjectsOf(t, id) <==> r in ObjectsOf(s, id) || (e.Submit? && e.id == id && r == s.next)
      ensures r in JudgedOf(t, id) <==> r in JudgedOf(s, id) || (Judges(s, e, id) && r == e.ref)
    {
      StepMembers(s, e, id, r);
    }
    var judged := if e.Decide? then e.ref else 0;
    StepMembers(s, e, id, judged);
    Sets.OneMoreElement(ObjectsOf(s, id), ObjectsOf(t, id), s.next, e.Submit? && e.id == id);
    Sets.OneMoreElement(JudgedOf(s, id), JudgedOf(t, id), judged, Judges(s, e, id));
  }

  /** An id never collects more verdicts than submissions. */
  lemma VerdictsPerSubmission(events: seq<Event>, id: int)
    ensures Verdicts(events, id) <= Submissions(events, id)
  {
    CountsAreSizes(events, id);
    Sets.SubsetIsNoLarger(JudgedOf(Run(events), id), ObjectsOf(Run(events), id));
  }

  lemma {:induction false} CountsAreSizes(events: seq<Event>, id: int)
    ensures Submissions(events, id) == |ObjectsOf(Run(events), id)|
    ensures Verdicts(events, id) == |JudgedOf(Run(events), id)|
    decreases |events|
  {
    if events != [] {
      var n := |events| - 1;
      CountsAreSizes(events[..n], id);
      RunIsFair(events[..n], 0);
      forall r ensures Fair(Run(events[..n]), r) {
        RunIsFair(events[..n], r);
      }
      StepCounts(Run(events[..n]), events[n], id);
    }
  }

  // ---------------------------------------------------------------- ticks, answers and the map

  /** A tick takes exactly the pending transactions of the map, each once and none of them from an earlier tick. */
  lemma TickChecksExactlyPending(events: seq<Event>, e: Event, r: Ref)
    requires Enabled(Run(events), e) && (e.FinishStart? || (e.FireInterval? && Run(events).done))
    ensures var s, t := Run(events), Step(Run(events), e);
            && (r in t.checks <==>
                  exists id :: id in s.entries && s.entries[id] == r && r in s.heap && s.heap[r].status == PENDING)
            && (r in t.checks ==> t.checks[r] == Check(Queued, None))
  {
    RunNoOverlap(events);
    var s := Run(events);
    assert s.checks == map[];
    assert Step(s, e).checks.Keys == PendingRefs(s);
  }

  /** The node does not know the transaction yet, and that is no reason to fail its row. */
  predicate Waiting(t: Transaction, answer: Answer) {
    answer.NothingFound? && (t.network == ETH || !answer.timedOut)
  }

  /** One answer touches only its own row: the row succeeds exactly when the answer passes every check, an
      answer that does not pass never leaves a success behind, and a node that has nothing yet changes the row
      only of a TRON transaction past its timeout. */
  lemma AnswerDecidesItsRow(t: Transaction, row: nat, answer: Answer)
    requires t.rows.Some? && row < |t.rows.value| && Fits(t.network, answer)
    ensures var u := Answered(t, row, answer);
            && u.rows.Some? && |u.rows.value| == |t.rows.value| && u.status == t.status
            && (forall i :: 0 <= i < |t.rows.value| && i != row ==> u.rows.value[i] == t.rows.value[i])
            && (Waiting(t, answer) ==> u == t)
            && (!Waiting(t, answer) ==>
                  && (u.rows.value[row] == SUCCEED <==> Passes(t, answer))
                  && (u.rows.value[row] == UNKNOWN <==> t.network == ETH && answer.RpcError?)
                  && u.rows.value[row] != PENDING)
  {
  }

  predicate CleansId(s: State, e: Event, id: int) {
    e.UpdateReturns? && Enabled(s, e) && Cleans(e.result) && s.heap[e.ref].id == id
  }

  /** The newest object of an id after a run, if it was ever submitted and not cleaned since. */
  function Latest(events: seq<Event>, id: int): Option<Ref> {
    if events == [] then None
    else
      var n := |events| - 1;
      var s := Run(events[..n]);
      if events[n].Submit? && events[n].id == id then Some(s.next)
      else if CleansId(s, events[n], id) then None
      else Latest(events[..n], id)
  }

  /** In every run the map holds an id exactly from a submission of it to the next cleaning after a check of
      it, and then holds the object submitted last: nothing else adds, replaces or removes an entry. */
  lemma {:induction false} EntryIsLatestSubmission(events: seq<Event>, id: int)
    ensures var entries := Run(events).entries;
            Latest(events, id) == if id in entries then Some(entries[id]) else None
    decreases |events|
  {
    if events != [] {
      var n := |events| - 1;
      EntryIsLatestSubmission(events[..n], id);
      StepChangesEntry(Run(events[..n]), events[n], id);
    }
  }

  lemma StepChangesEntry(s: State, e: Event, id: int)
    ensures var t := Step(s, e);
            if e.Submit? && e.id == id then id in t.entries && t.entries[id] == s.next
            else if CleansId(s, e, id) then id !in t.entries
            else (id in t.entries <==> id in s.entries) && (id in s.entries ==> t.entries[id] == s.entries[id])
  {
  }

  // ---------------------------------------------------------------- submissions during a check

  lemma StepKeepsNewest(s: State, e: Event)
    requires Allocated(s) && Newest(s)
    ensures Newest(Step(s, e))
  {
    var t := Step(s, e);
    forall r | r in t.heap && t.heap[r].id in t.entries ensures r <= t.entries[t.heap[r].id] {
      if r in s.heap {
        StepKeepsObject(s, e, r);
      } else {
        StepAllocates(s, e, r);
      }
    }
  }

  lemma {:induction false} RunNewest(events: seq<Event>)
    ensures Newest(Run(events))
    decreases |events|
  {
    if events != [] {
      RunNewest(events[..|events| - 1]);
      RunIsFair(events[..|events| - 1], 0);
      StepKeepsNewest(Run(events[..|events| - 1]), events[|events| - 1]);
    }
  }

  /** Nothing can reach the object any more: it is neither in the map nor being checked. */
  ghost predicate Orphaned(s: State, r: Ref) {
    r in s.heap && r !in s.checks && forall id :: id in s.entries ==> s.entries[id] != r
  }

  lemma StepKeepsOrphan(s: State, e: Event, r: Ref)
    requires Allocated(s) && Orphaned(s, r)
    ensures Orphaned(Step(s, e), r) && Step(s, e).heap[r] == s.heap[r]
  {
  }

  /** An orphaned object is never checked or judged again, whatever follows. */
  lemma {:induction false} OrphansStay(events: seq<Event>, i: nat, r: Ref)
    requires i <= |events| && Orphaned(Run(events[..i]), r)
    ensures Orphaned(Run(events), r) && Run(events).heap[r] == Run(events[..i]).heap[r]
    decreases |events|
  {
    if i == |events| {
      assert events[..i] == events;
    } else {
      var n := |events| - 1;
      assert events[..n][..i] == events[..i];
      OrphansStay(events[..n], i, r);
      RunIsFair(events[..n], r);
      StepKeepsOrphan(Run(events[..n]), events[n], r);
    }
  }

  /** No two objects of one id are being checked. */
  ghost predicate OneCheckPerId(s: State) {
    forall a, b :: a in s.checks && b in s.checks && a in s.heap && b in s.heap && s.heap[a].id == s.heap[b].id ==>
      a == b
  }

  /** An event begins a tick when no check is left, or adds no check. */
  lemma StepAddsChecks(s: State, e: Event, r: Ref)
    requires NoOverlap(s) && r in Step(s, e).checks
    ensures r in s.checks || (s.checks == map[] && r in PendingRefs(s))
  {
    if Enabled(s, e) {
      match e
      case BeginCheck(ref, created) =>
      case AnswerRow(ref, row, answer) =>
      case Decide(ref, timedOut) =>
      case _ =>
    }
  }

  lemma StepKeepsOneCheck(s: State, e: Event)
    requires NoOverlap(s) && Allocated(s) && OneCheckPerId(s)
    ensures OneCheckPerId(Step(s, e))
  {
    var t := Step(s, e);
    forall a, b | a in t.checks && b in t.checks && a in t.heap && b in t.heap && t.heap[a].id == t.heap[b].id
      ensures a == b
    {
      StepAddsChecks(s, e, a);
      StepAddsChecks(s, e, b);
      StepKeepsObject(s, e, a);
      StepKeepsObject(s, e, b);
    }
  }

  /** In every run at most one object of an id is being checked. */
  lemma {:induction false} RunOneCheck(events: seq<Event>)
    ensures OneCheckPerId(Run(events))
    decreases |events|
  {
    if events != [] {
      var n := |events| - 1;
      RunOneCheck(events[..n]);
      RunNoOverlap(events[..n]);
      RunIsFair(events[..n], 0);
      StepKeepsOneCheck(Run(events[..n]), events[n]);
    }
  }

  /** Cleaning after a check removes the entry of its id. The removed entry is another object's exactly when
      the id was submitted again after the checked object and is still in the map; that object is then
      orphaned. */
  lemma CleaningDropsNewerSubmission(events: seq<Event>, r: Ref, result: UpdateResult)
    requires Enabled(Run(events), UpdateReturns(r, result)) && Cleans(result)
    ensures var s := Run(events);
            var t, id := Step(s, UpdateReturns(r, result)), s.heap[r].id;
            && id !in t.entries
            && (id in s.entries ==>
                  (s.entries[id] != r <==> exists q :: q in s.heap && s.heap[q].id == id && q > r)
                  && (s.entries[id] != r ==> Orphaned(t, s.entries[id])))
  {
    RunIsFair(events, r);
    RunNewest(events);
    RunOneCheck(events);
    var s := Run(events);
    var id := s.heap[r].id;
    if id in s.entries && s.entries[id] != r {
      assert s.entries[id] in s.heap && s.heap[s.entries[id]].id == id;
    }
  }

  // ---------------------------------------------------------------- verdicts between two submissions

  /** The object can still be given a verdict although its id is not submitted again: it has none, and it is in
      the map or its check has not decided. */
  predicate Judgeable(s: State, id: int, r: Ref) {
    && r in s.heap && s.heap[r].id == id && s.heap[r].verdicts == 0
    && (InMap(s, id, r) || (r in s.checks && !s.checks[r].phase.Updating?))
  }

  predicate InMap(s: State, id: int, r: Ref) {
    id in s.entries && s.entries[id] == r
  }

  ghost predicate NeverSubmitted(events: seq<Event>, id: int) {
    forall e :: e in events && e.Submit? ==> e.id != id
  }

  lemma StepKeepsUndecided(s: State, e: Event, r: Ref)
    requires NoOverlap(s) && r in Step(s, e).checks && !Step(s, e).checks[r].phase.Updating?
    ensures r in PendingRefs(s) || (r in s.checks && !s.checks[r].phase.Updating?)
  {
    if Enabled(s, e) {
      match e
      case BeginCheck(ref, created) =>
      case AnswerRow(ref, row, answer) =>
      case Decide(ref, timedOut) =>
      case _ =>
    }
  }

  /** Without a submission of its id no object becomes judgeable, and only a judgeable one is judged. */
  lemma StepKeepsJudgeable(s: State, e: Event, id: int, r: Ref)
    requires NoOverlap(s) && Allocated(s) && Fair(s, r) && !(e.Submit? && e.id == id)
    ensures Judgeable(Step(s, e), id, r) ==> Judgeable(s, id, r)
    ensures r in JudgedOf(Step(s, e), id) ==> r in JudgedOf(s, id) || Judgeable(s, id, r)
    ensures r in JudgedOf(s, id) ==> r in JudgedOf(Step(s, e), id)
  {
    var t := Step(s, e);
    StepMembers(s, e, id, r);
    if r in s.heap {
      StepKeepsObject(s, e, r);
      StepChangesEntry(s, e, id);
      if r in t.checks && !t.checks[r].phase.Updating? {
        StepKeepsUndecided(s, e, r);
      }
    } else {
      StepAllocates(s, e, r);
    }
  }

  lemma {:induction false} JudgedWereJudgeable(before: seq<Event>, between: seq<Event>, id: int, r: Ref)
    requires NeverSubmitted(between, id)
    ensures var s, t := Run(before), Run(before + between);
            && (Judgeable(t, id, r) ==> Judgeable(s, id, r))
            && (r in JudgedOf(t, id) ==> r in JudgedOf(s, id) || Judgeable(s, id, r))
            && (r in JudgedOf(s, id) ==> r in JudgedOf(t, id))
    decreases |between|
  {
    if between == [] {
      assert before + between == before;
    } else {
      var n := |between| - 1;
      var all := before + between[..n];
      assert forall e :: e in between[..n] ==> e in between;
      JudgedWereJudgeable(before, between[..n], id, r);
      assert between[n] in between && before + between == all + [between[n]];
      RunSteps(all, between[n]);
      RunNoOverlap(all);
      RunIsFair(all, r);
      StepKeepsJudgeable(Run(all), between[n], id, r);
    }
  }

  /** The objects of an id that got their verdict in the second part of a run. */
  function JudgedBetween(before: seq<Event>, between: seq<Event>, id: int): set<Ref> {
    JudgedOf(Run(before + between), id) - JudgedOf(Run(before), id)
  }

  /** An older object of the id than the one in the map is being checked and not decided. */
  predicate OlderUndecided(s: State, id: int, r: Ref) {
    && r in s.heap && s.heap[r].id == id && id in s.entries && s.entries[id] != r
    && r in s.checks && !s.checks[r].phase.Updating?
  }

  lemma JudgeableAreTwo(s: State, id: int, a: Ref, b: Ref)
    requires OneCheckPerId(s) && Judgeable(s, id, a) && Judgeable(s, id, b) && a != b
    ensures (OlderUndecided(s, id, a) && b == s.entries[id]) || (OlderUndecided(s, id, b) && a == s.entries[id])
  {
  }

  lemma AtMostTwoJudgeable(s: State, id: int, judged: set<Ref>)
    requires OneCheckPerId(s) && forall r :: r in judged ==> Judgeable(s, id, r)
    ensures |judged| <= 2
    ensures |judged| > 1 <==> exists r :: OlderUndecided(s, id, r) && judged == {r, s.entries[id]}
  {
    if |judged| > 1 {
      var a := Sets.Member(judged);
      assert |judged - {a}| == |judged| - 1;
      var b := Sets.Member(judged - {a});
      forall c | c in judged ensures c == a || c == b {
        if c != a && c != b {
          JudgeableAreTwo(s, id, a, b);
          JudgeableAreTwo(s, id, a, c);
          JudgeableAreTwo(s, id, b, c);
        }
      }
      assert judged == {a, b};
      JudgeableAreTwo(s, id, a, b);
      assert OlderUndecided(s, id, a) || OlderUndecided(s, id, b);
    }
  }

  /** As long as an id is not submitted again, it collects as many verdicts as objects of it that were judgeable at
      the start, at most two; it collects two exactly when the object in the map is judged and so is an older one
      whose check was still undecided at the start. */
  lemma VerdictsBetweenSubmissions(before: seq<Event>, between: seq<Event>, id: int)
    requires NeverSubmitted(between, id)
    ensures var s, judged := Run(before), JudgedBetween(before, between, id);
            && Verdicts(before + between, id) == Verdicts(before, id) + |judged|
            && (forall r :: r in judged ==> Judgeable(s, id, r))
            && |judged| <= 2
            && (|judged| > 1 <==> exists r :: OlderUndecided(s, id, r) && judged == {r, s.entries[id]})
  {
    var s, judged := Run(before), JudgedBetween(before, between, id);
    forall r | r in JudgedOf(s, id) ensures r in JudgedOf(Run(before + between), id) {
      JudgedWereJudgeable(before, between, id, r);
    }
    forall r | r in judged ensures Judgeable(s, id, r) {
      JudgedWereJudgeable(before, between, id, r);
    }
    CountsAreSizes(before, id);
    CountsAreSizes(before + between, id);
    assert JudgedOf(Run(before + between), id) == JudgedOf(s, id) + judged;
    RunOneCheck(before);
    AtMostTwoJudgeable(s, id, judged);
  }

  // ---------------------------------------------------------------- entries that are never checked again

  /** The entry of the id is not pending and no object of the id is being checked. */
  ghost predicate Stuck(s: State, id: int, r: Ref) {
    && InMap(s, id, r) && r in s.heap && s.heap[r].id == id && s.heap[r].status != PENDING
    && (forall q :: q in s.checks && q in s.heap ==> s.heap[q].id != id)
  }

  lemma StepKeepsStuck(s: State, e: Event, id: int, r: Ref)
    requires NoOverlap(s) && Allocated(s) && Stuck(s, id, r) && !(e.Submit? && e.id == id)
    ensures Stuck(Step(s, e), id, r) && Step(s, e).heap[r] == s.heap[r]
  {
    var t := Step(s, e);
    StepChangesEntry(s, e, id);
    StepKeepsUnchecked(s, e, r);
    forall q | q in t.checks && q in t.heap ensures t.heap[q].id != id {
      StepAddsChecks(s, e, q);
      StepKeepsObject(s, e, q);
    }
  }

  lemma StepKeepsUnchecked(s: State, e: Event, r: Ref)
    requires Allocated(s) && r in s.heap && r !in s.checks
    ensures r in Step(s, e).heap && Step(s, e).heap[r] == s.heap[r]
  {
    if Enabled(s, e) {
      match e
      case BeginCheck(ref, created) =>
      case AnswerRow(ref, row, answer) =>
      case Decide(ref, timedOut) =>
      case _ =>
    }
  }

  lemma RunKeepsStuck(events: seq<Event>, e: Event, id: int, r: Ref)
    requires Stuck(Run(events), id, r) && !(e.Submit? && e.id == id)
    ensures Stuck(Run(events + [e]), id, r) && Run(events + [e]).heap[r] == Run(events).heap[r]
  {
    RunSteps(events, e);
    RunNoOverlap(events);
    RunIsFair(events, r);
    StepKeepsStuck(Run(events), e, id, r);
  }

  lemma {:induction false} StuckStays(before: seq<Event>, after: seq<Event>, id: int, r: Ref)
    requires Stuck(Run(before), id, r) && NeverSubmitted(after, id)
    ensures Stuck(Run(before + after), id, r) && Run(before + after).heap[r] == Run(before).heap[r]
    decreases |after|
  {
    if after == [] {
      assert before + after == before;
    } else {
      var n := |after| - 1;
      assert forall e :: e in after[..n] ==> e in after;
      StuckStays(before, after[..n], id, r);
      assert after[n] in after && before + after == before + after[..n] + [after[n]];
      RunKeepsStuck(before + after[..n], after[n], id, r);
    }
  }

  /** The update of a judged transaction ended without cleaning its entry: it threw, brought nothing back or met
      the system update error. */
  predicate UpdateFails(s: State, e: Event, r: Ref) {
    && r in s.heap && s.heap[r].verdicts == 1 && Enabled(s, e)
    && (e == CheckThrows(r) || (e.UpdateReturns? && e.ref == r && !Cleans(e.result)))
  }

  /** After such an end the judged transaction stays in the map, unchanged and unchecked, in every continuation
      that does not submit its id again. */
  lemma FailedUpdateStrandsEntry(before: seq<Event>, e: Event, after: seq<Event>, id: int, r: Ref)
    requires UpdateFails(Run(before), e, r) && InMap(Run(before), id, r) && NeverSubmitted(after, id)
    ensures var s, t := Run(before), Run(before + [e] + after);
            && r in s.heap && r in t.heap && t.heap[r] == s.heap[r] && InMap(t, id, r)
            && (forall q :: q in t.checks && q in t.heap ==> t.heap[q].id != id)
  {
    RunSteps(before, e);
    RunIsFair(before, r);
    RunOneCheck(before);
    assert Stuck(Run(before + [e]), id, r);
    StuckStays(before + [e], after, id, r);
  }

  lemma RunSteps(events: seq<Event>, e: Event)
    ensures Run(events + [e]) == Step(Run(events), e)
  {
  }

  /** The transaction of the witnesses, pending with given rows. */
  function OneRow(order: Order, id: int, rows: seq<Status>): Transaction {
    Transaction(id, ETH, order, PENDING, Some(rows), None, 0, false, SUCCEED in rows)
  }

  /** That transaction, alone in the map, up to the start of its check. */
  lemma BegunAlone(order: Order, id: int, rows: seq<Status>) returns (events: seq<Event>)
    ensures Run(events)
            == State(Started, true, false, 1, map[id := 0], map[0 := OneRow(order, id, rows)], 1,
                     map[0 := Check(Queued, None)])
  {
    var submit := Submit(id, ETH, order, PENDING, Some(rows), None);
    RunSteps([], submit);
    RunSteps([] + [submit], Start);
    events := [] + [submit] + [Start];
    var s := Run(events);
    assert s.heap == map[0 := OneRow(order, id, rows)];
    assert id in s.entries && s.entries[id] == 0;
    assert PendingRefs(s) == {0};
    RunSteps(events, FinishStart);
    events := events + [FinishStart];
  }

  lemma OneRowPolled(s: State, r: Ref)
    requires r in s.checks && s.checks[r] == Check(Queued, None) && r in s.heap
    requires s.heap[r].network == ETH && s.heap[r].rows.Some? && |s.heap[r].rows.value| == 1
    ensures Step(Step(s, BeginCheck(r, 0)), AnswerRow(r, 0, NothingFound(true)))
            == s.(checks := s.checks[r := Check(Polling({}), None)])
  {
    var s1 := Step(s, BeginCheck(r, 0));
    assert 0 in Sets.Below(1) && Sets.Below(1) - {0} == {};
    assert s1 == s.(checks := s.checks[r := Check(Polling(Sets.Below(1)), None)]);
    assert Answered(s.heap[r], 0, NothingFound(true)) == s.heap[r];
  }

  /** A pending transaction whose only node knows nothing of it fails at the timeout. */
  lemma OneRowFails(s: State, r: Ref)
    requires r in s.checks && s.checks[r] == Check(Polling({}), None) && r in s.heap
    requires s.heap[r] == OneRow(s.heap[r].order, s.heap[r].id, [PENDING])
    ensures Step(s, Decide(r, true))
            == s.(heap := s.heap[r := s.heap[r].(status := FAILED, failCode := Some(TRANSACTION_TIMEOUT),
                                                 verdicts := 1)],
                  checks := s.checks[r := Check(Updating(Fail), None)])
    ensures Judges(s, Decide(r, true), s.heap[r].id)
  {
    assert [PENDING][0] == PENDING && !IsTransactionFailed([PENDING]);
    assert VerdictFor(s.heap[r], true) == Fail;
  }

  /** The events of such a check up to its verdict. */
  function FailingCheck(r: Ref): seq<Event> {
    [BeginCheck(r, 0), AnswerRow(r, 0, NothingFound(true)), Decide(r, true)]
  }

  lemma RunFailingCheck(events: seq<Event>, r: Ref, id: int)
    requires var s := Run(events);
             && r in s.checks && s.checks[r] == Check(Queued, None) && r in s.heap
             && s.heap[r] == OneRow(s.heap[r].order, id, [PENDING])
    ensures var s := Run(events);
            var failed := s.heap[r].(status := FAILED, failCode := Some(TRANSACTION_TIMEOUT), verdicts := 1);
            Run(events + FailingCheck(r))
            == s.(heap := s.heap[r := failed], checks := s.checks[r := Check(Updating(Fail), None)])
    ensures Verdicts(events + FailingCheck(r), id) == Verdicts(events, id) + 1
  {
    var s, three := Run(events), FailingCheck(r);
    var e2 := events + [three[0]] + [three[1]];
    RunTwo(events, three[0], three[1], id);
    OneRowPolled(s, r);
    OneRowFails(Run(e2), r);
    RunSteps(e2, three[2]);
    VerdictsStep(e2, three[2], id);
    assert events + three == e2 + [three[2]];
  }

  lemma RunTwo(events: seq<Event>, a: Event, b: Event, id: int)
    ensures Run(events + [a] + [b]) == Step(Step(Run(events), a), b)
    ensures !a.Decide? && !b.Decide? ==> Verdicts(events + [a] + [b], id) == Verdicts(events, id)
  {
    RunSteps(events, a);
    RunSteps(events + [a], b);
    VerdictsStep(events, a, id);
    VerdictsStep(events + [a], b, id);
  }

  lemma VerdictsStep(events: seq<Event>, e: Event, id: int)
    ensures Verdicts(events + [e], id) == Verdicts(events, id) + One(Judges(Run(events), e, id))
  {
    assert (events + [e])[..|events|] == events;
  }

  /** The transaction alone in the map, judged, its update on the way. */
  lemma FailedAlone(order: Order, id: int) returns (events: seq<Event>)
    ensures var s := Run(events);
            && s.entries == map[id := 0] && s.next == 1 && s.checks == map[0 := Check(Updating(Fail), None)]
            && s.heap.Keys == {0} && s.heap[0].id == id
  {
    var begun := BegunAlone(order, id, [PENDING]);
    RunFailingCheck(begun, 0, id);
    events := begun + FailingCheck(0);
  }

  /** It happens: a transaction submitted again while its earlier object is being checked can leave the map
      unjudged; that object is never checked. */
  lemma ResubmissionCanBeLost(order: Order, id: int)
    ensures exists events :: 1 in Run(events).heap && Run(events).heap[1].id == id
              && Run(events).heap[1].verdicts == 0 && Run(events).heap[1].status == PENDING
              && Orphaned(Run(events), 1)
  {
    var events := FailedAlone(order, id);
    var again := Submit(id, ETH, order, PENDING, Some([PENDING]), None);
    RunSteps(events, again);
    RunSteps(events + [again], UpdateReturns(0, Data));
    var all := events + [again] + [UpdateReturns(0, Data)];
    assert Run(events + [again]).entries == map[id := 1];
    assert Orphaned(Run(all), 1);
  }

  /** What lies between the two verdicts of the next witness. */
  function NextTick(): seq<Event> {
    [UpdateReturns(0, Errors(true)), EndTick, FireInterval]
  }

  lemma TickAgain(s: State, order: Order, id: int)
    requires s.entries == map[id := 1] && 1 in s.heap && s.heap[1] == OneRow(order, id, [PENDING])
    requires s.checks == map[] && s.ticks == 1 && s.interval
    ensures Step(Step(s, EndTick), FireInterval) == s.(done := false, checks := map[1 := Check(Queued, None)])
  {
    var ended := Step(s, EndTick);
    assert ended == s.(ticks := 0, done := true);
    assert id in ended.entries && PendingRefs(ended) == {1};
  }

  lemma RunNextTick(events: seq<Event>, order: Order, id: int)
    requires var s := Run(events);
             && s.entries == map[id := 1] && s.heap.Keys == {0, 1} && s.heap[1] == OneRow(order, id, [PENDING])
             && s.checks == map[0 := Check(Updating(Fail), None)] && s.ticks == 1 && s.interval
    ensures Run(events + NextTick()) == Run(events).(done := false, checks := map[1 := Check(Queued, None)])
    ensures Verdicts(events + NextTick(), id) == Verdicts(events, id)
  {
    var s, three := Run(events), NextTick();
    var e1 := events + [three[0]];
    RunSteps(events, three[0]);
    VerdictsStep(events, three[0], id);
    assert Step(s, three[0]) == s.(checks := map[]);
    RunTwo(e1, three[1], three[2], id);
    TickAgain(s.(checks := map[]), order, id);
    assert events + three == e1 + [three[1]] + [three[2]];
  }

  /** Submitted again under its check, which then fails it. */
  lemma FailedAfterResubmission(order: Order, id: int) returns (before: seq<Event>)
    ensures var s := Run(before + FailingCheck(0));
            && s.entries == map[id := 1] && s.heap.Keys == {0, 1} && s.heap[1] == OneRow(order, id, [PENDING])
            && s.checks == map[0 := Check(Updating(Fail), None)] && s.ticks == 1 && s.interval
    ensures Verdicts(before + FailingCheck(0), id) == Verdicts(before, id) + 1
  {
    var begun := BegunAlone(order, id, [PENDING]);
    var again := Submit(id, ETH, order, PENDING, Some([PENDING]), None);
    RunSteps(begun, again);
    before := begun + [again];
    assert Run(before).heap == map[0 := OneRow(order, id, [PENDING]), 1 := OneRow(order, id, [PENDING])];
    assert Run(before).entries == map[id := 1];
    RunFailingCheck(before, 0, id);
  }

  lemma FailedInNextTick(first: seq<Event>, order: Order, id: int)
    requires var s := Run(first);
             && s.entries == map[id := 1] && s.heap.Keys == {0, 1} && s.heap[1] == OneRow(order, id, [PENDING])
             && s.checks == map[0 := Check(Updating(Fail), None)] && s.ticks == 1 && s.interval
    ensures Verdicts(first + NextTick() + FailingCheck(1), id) == Verdicts(first, id) + 1
  {
    RunNextTick(first, order, id);
    RunFailingCheck(first + NextTick(), 1, id);
  }

  /** Two verdicts after the last submission of an id do happen: the check that was running at the submission ends
      in one, and the next tick gives the new object another. */
  lemma TwoVerdictsAfterSubmission(order: Order, id: int)
    ensures exists before, between ::
              NeverSubmitted(between, id) && Verdicts(before + between, id) == Verdicts(before, id) + 2
  {
    var before := FailedAfterResubmission(order, id);
    FailedInNextTick(before + FailingCheck(0), order, id);
    var between := FailingCheck(0) + NextTick() + FailingCheck(1);
    assert before + between == before + FailingCheck(0) + NextTick() + FailingCheck(1);
    assert NeverSubmitted(between, id);
  }

  /** The exception of `VerdictSafety` is real: a transaction submitted with a succeeded row succeeds although its
      only node knows nothing of it. */
  lemma ArrivedSuccessIsTrusted(order: Order, id: int)
    ensures exists events :: 0 in Run(events).heap && Run(events).heap[0].id == id
              && Run(events).heap[0].verdicts == 1 && Run(events).heap[0].status == SUCCEED
              && !Run(events).heap[0].passed
  {
    var begun := BegunAlone(order, id, [SUCCEED]);
    var e2 := begun + [BeginCheck(0, 0)] + [AnswerRow(0, 0, NothingFound(true))];
    RunTwo(begun, BeginCheck(0, 0), AnswerRow(0, 0, NothingFound(true)), id);
    OneRowPolled(Run(begun), 0);
    RunSteps(e2, Decide(0, true));
    ArrivedRowSucceeds(Run(e2), order, id);
    assert Run(e2 + [Decide(0, true)]).heap == Step(Run(e2), Decide(0, true)).heap;
  }

  lemma ArrivedRowSucceeds(s: State, order: Order, id: int)
    requires 0 in s.checks && s.checks[0] == Check(Polling({}), None)
    requires s.heap == map[0 := OneRow(order, id, [SUCCEED])]
    ensures Step(s, Decide(0, true)).heap
            == map[0 := OneRow(order, id, [SUCCEED]).(status := SUCCEED, verdicts := 1)]
  {
    assert SUCCEED in [SUCCEED];
  }

  // ---------------------------------------------------------------- beginning, ending and stopping

  /** A check begins with the rows the transaction has. One without rows gets as many pending ones as the service
      creates while its order stands at the sending step; one whose rows stay missing is not checked. The check waits
      for exactly its rows, and nothing else of the transaction changes. */
  lemma CheckBeginsWithItsRows(s: State, r: Ref, created: nat)
    requires Enabled(s, BeginCheck(r, created))
    ensures var t, had := Step(s, BeginCheck(r, created)), s.heap[r].rows;
            var creates := (had == None || had == Some([])) && s.heap[r].order.sending;
            && r in t.heap && t.heap[r] == s.heap[r].(rows := t.heap[r].rows)
            && (!creates ==> t.heap[r].rows == had)
            && (creates ==> t.heap[r].rows.Some? && |t.heap[r].rows.value| == created
                            && forall i :: 0 <= i < created ==> t.heap[r].rows.value[i] == PENDING)
            && (r in t.checks <==> t.heap[r].rows.Some?)
            && (r in t.checks ==>
                  t.checks[r].phase.Polling?
                  && forall i: nat :: i in t.checks[r].phase.left <==> i < |t.heap[r].rows.value|)
  {
  }

  /** The end of an update ends its check. The entry of the id goes when the service brought data or any error but the
      failed system update, and stays when it brought nothing or that error; throwing never removes an entry. */
  lemma UpdateEndsCheck(s: State, r: Ref, result: UpdateResult, id: int)
    requires Enabled(s, UpdateReturns(r, result))
    ensures var t, u := Step(s, UpdateReturns(r, result)), Step(s, CheckThrows(r));
            && r !in t.checks && r !in u.checks && t.heap == u.heap == s.heap && u.entries == s.entries
            && (id in t.entries <==>
                  id in s.entries && (id == s.heap[r].id ==> result == Nothing || result == Errors(true)))
            && (id in t.entries ==> t.entries[id] == s.entries[id])
  {
  }

  /** Once started and stopped, no further tick will begin. */
  ghost predicate Stopped(s: State, checked: set<Ref>) {
    s.stage == Started && !s.interval && s.checks.Keys <= checked
  }

  lemma StepKeepsStopped(s: State, e: Event, checked: set<Ref>)
    requires Stopped(s, checked)
    ensures Stopped(Step(s, e), checked)
  {
  }

  lemma {:induction false} StoppedStays(before: seq<Event>, after: seq<Event>, checked: set<Ref>)
    requires Stopped(Run(before), checked)
    ensures Stopped(Run(before + after), checked)
    decreases |after|
  {
    if after == [] {
      assert before + after == before;
    } else {
      var n := |after| - 1;
      StoppedStays(before, after[..n], checked);
      assert before + after == before + after[..n] + [after[n]];
      RunSteps(before + after[..n], after[n]);
      StepKeepsStopped(Run(before + after[..n]), after[n], checked);
    }
  }

  /** Stopping a started worker touches nothing of the running tick, and in every continuation only the checks that
      were running then ever run. */
  lemma StopEndsTicks(before: seq<Event>, after: seq<Event>, r: Ref)
    requires Run(before).stage == Started
    ensures Run(before + [Stop]) == Run(before).(interval := false)
    ensures r in Run(before + [Stop] + after).checks ==> r in Run(before).checks
  {
    RunSteps(before, Stop);
    StoppedStays(before + [Stop], after, Run(before).checks.Keys);
  }
}
