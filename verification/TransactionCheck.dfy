/**
 What one RPC answer says about a transaction, and what all rows together say: the validations of a receipt
 and the verdict of one tick.
 */
module TransactionCheck {
  import opened Options

  datatype Status = PENDING | SUCCEED | FAILED | UNKNOWN

  datatype FailCode =
    | INVALID_ADDRESS_SEND
    | INVALID_ADDRESS_RECEIVE
    | INVALID_AMOUNT
    | INVALID_TIME_SEND
    | RPC_TIMEOUT
    | TRANSACTION_TIMEOUT
    | TRANSACTION_SEND_FAILED
    | RPC_UNKNOW_ERROR

  /** The result of a validation. */
  datatype Result = Result(isValid: bool, errorCode: Option<FailCode>)

  const VALID := Result(true, None)

  function Invalid(code: FailCode): Result { Result(false, Some(code)) }

  datatype TradeType = BUY | SELL

  /** The parts of an order a check reads; `sending` says that it stands at its crypto-sending step. */
  datatype Order = Order(tradeType: TradeType, contract: Option<string>, userWallet: string,
                         merchantWallet: string, createdAt: int, amount: real, sending: bool)

  function Receiver(o: Order): string {
    if o.tradeType == SELL then o.merchantWallet else o.userWallet
  }

  function Sender(o: Order): string {
    if o.tradeType == SELL then o.userWallet else o.merchantWallet
  }

  // ---------------------------------------------------------------- TRON

  datatype TronTransaction = TronTransaction(from: string, to: string, amount: real, status: Option<Status>,
                                             createdAt: int)

  function NotFailed(t: TronTransaction): Result {
    Result(t.status != Some(FAILED), Some(TRANSACTION_SEND_FAILED))
  }

  function AllWalletsValid(t: TronTransaction, o: Order): Result {
    if t.to != Receiver(o) then Invalid(INVALID_ADDRESS_RECEIVE)
    else if o.contract.Some? && t.from != Sender(o) then Invalid(INVALID_ADDRESS_SEND)
    else VALID
  }

  function AfterOrder(t: TronTransaction, o: Order): Result {
    Result(t.createdAt >= o.createdAt, Some(INVALID_TIME_SEND))
  }

  function EqualOrderAmount(t: TronTransaction, o: Order): Result {
    Result(t.amount == o.amount, Some(INVALID_AMOUNT))
  }

  /** The operations in the order they are tried. */
  function TronOperation(k: nat, t: TronTransaction, o: Order): Result
    requires k < 3
  {
    if k == 0 then AllWalletsValid(t, o) else if k == 1 then AfterOrder(t, o) else EqualOrderAmount(t, o)
  }

  /** Everything a TRON transaction must satisfy. */
  predicate PassesTron(t: TronTransaction, o: Order) {
    && t.status != Some(FAILED)
    && t.to == Receiver(o)
    && (o.contract.Some? ==> t.from == Sender(o))
    && t.createdAt >= o.createdAt
    && t.amount == o.amount
  }

  /** The code of the first check that fails. A transaction that passes still carries the code of the last
      operation. */
  function TronCode(t: TronTransaction, o: Order): FailCode {
    if t.status == Some(FAILED) then TRANSACTION_SEND_FAILED
    else if t.to != Receiver(o) then INVALID_ADDRESS_RECEIVE
    else if o.contract.Some? && t.from != Sender(o) then INVALID_ADDRESS_SEND
    else if t.createdAt < o.createdAt then INVALID_TIME_SEND
    else INVALID_AMOUNT
  }

  /** The result the loop over the operations computes. */
  function TronResult(t: TronTransaction, o: Order): Result {
    Result(PassesTron(t, o), Some(TronCode(t, o)))
  }

  method ValidateTronTransaction(t: TronTransaction, o: Order) returns (data: Result)
    ensures data.isValid <==> PassesTron(t, o)
    ensures data == TronResult(t, o)
  {
    data := NotFailed(t);
    if !data.isValid {
      return;
    }
    var k := 0;
    while k < 3
      invariant 0 <= k <= 3 && data.isValid && NotFailed(t).isValid
      invariant forall j :: 0 <= j < k ==> TronOperation(j, t, o).isValid
      invariant k > 0 ==> data == TronOperation(k - 1, t, o)
    {
      data := TronOperation(k, t, o);
      if !data.isValid {
        break;
      }
      k := k + 1;
    }
    assert data.isValid ==> TronOperation(0, t, o).isValid && TronOperation(1, t, o).isValid;
    assert !data.isValid ==> k > 0 ==> TronOperation(0, t, o).isValid;
    assert !data.isValid ==> k > 1 ==> TronOperation(1, t, o).isValid;
  }

  // ---------------------------------------------------------------- ETH-like chains

  datatype Transfer = Transfer(from: string, to: string, amount: real)

  /** A mined receipt with what the further RPC calls about it answer. */
  datatype Receipt = Receipt(from: string, to: string, success: bool, value: Option<real>,
                             transfers: seq<Transfer>, isNative: bool, createdAt: Option<int>)

  function WalletAddress(r: Receipt, o: Order): Result {
    if o.contract.Some? && r.to != o.contract.value then Invalid(INVALID_ADDRESS_RECEIVE)
    else if o.contract.None? && r.to != Receiver(o) then Invalid(INVALID_ADDRESS_RECEIVE)
    else VALID
  }

  /** A missing block time is before nothing. */
  predicate BeforeOrder(r: Receipt, o: Order) {
    r.createdAt.Some? && r.createdAt.value < o.createdAt
  }

  /** An amount in hundredths, rounded toward zero. */
  function Hundredths(amount: real): int {
    if amount >= 0.0 then (amount * 100.0).Floor else -((-amount * 100.0).Floor)
  }

  predicate IncorrectAmount(value: Option<real>, o: Order) {
    value.Some? && value.value != 0.0 && Hundredths(o.amount) != Hundredths(value.value)
  }

  function NativeTransaction(r: Receipt, o: Order): Result {
    if r.from != Sender(o) then Invalid(INVALID_ADDRESS_SEND)
    else if r.to != Receiver(o) then Invalid(INVALID_ADDRESS_RECEIVE)
    else if BeforeOrder(r, o) then Invalid(INVALID_TIME_SEND)
    else if IncorrectAmount(r.value, o) then Invalid(INVALID_AMOUNT)
    else Result(r.success, None)
  }

  function TransactionLog(l: Transfer, o: Order): Result {
    if l.to != Receiver(o) then Invalid(INVALID_ADDRESS_RECEIVE)
    else if l.from != Sender(o) then Invalid(INVALID_ADDRESS_SEND)
    else if l.amount != o.amount then Invalid(INVALID_AMOUNT)
    else VALID
  }

  /** When some log fails, the code reported is that of the first log, failing or not. */
  function Erc20Transaction(r: Receipt, o: Order): Result {
    if BeforeOrder(r, o) then Invalid(INVALID_TIME_SEND)
    else if exists i :: 0 <= i < |r.transfers| && !TransactionLog(r.transfers[i], o).isValid
    then Result(false, TransactionLog(r.transfers[0], o).errorCode)
    else Result(r.success, Some(TRANSACTION_SEND_FAILED))
  }

  function EthResult(r: Receipt, o: Order): Result {
    var wallet := WalletAddress(r, o);
    if !wallet.isValid then wallet
    else if r.isNative then NativeTransaction(r, o)
    else Erc20Transaction(r, o)
  }

  /** Everything a mined transaction must satisfy. */
  predicate PassesEth(r: Receipt, o: Order) {
    && r.success
    && !BeforeOrder(r, o)
    && r.to == (if o.contract.Some? then o.contract.value else Receiver(o))
    && (if r.isNative then r.from == Sender(o) && r.to == Receiver(o) && !IncorrectAmount(r.value, o)
        else forall i :: 0 <= i < |r.transfers| ==>
               r.transfers[i] == Transfer(Sender(o), Receiver(o), o.amount))
  }

  lemma EthResultIsConjunction(r: Receipt, o: Order)
    ensures EthResult(r, o).isValid <==> PassesEth(r, o)
  {
  }

  // ---------------------------------------------------------------- acceptance, written out

  /** Who must pay whom: the merchant the user of a BUY order, the user the merchant of a SELL order. */
  predicate PaysRightly(from: string, to: string, o: Order) {
    match o.tradeType
    case BUY => from == o.merchantWallet && to == o.userWallet
    case SELL => from == o.userWallet && to == o.merchantWallet
  }

  predicate ReceivedRightly(to: string, o: Order) {
    (o.tradeType == BUY && to == o.userWallet) || (o.tradeType == SELL && to == o.merchantWallet)
  }

  /** A TRON transaction is accepted exactly when it has not failed, was not made before the order, is of the exact
      amount and goes to the right wallet, for an asset with a contract also from the right one. Otherwise the code
      names the first of failure, receiver, sender, time and amount that is wrong. */
  lemma TronAcceptance(t: TronTransaction, o: Order)
    ensures TronResult(t, o).isValid <==>
              && t.status != Some(FAILED) && t.createdAt >= o.createdAt && t.amount == o.amount
              && ReceivedRightly(t.to, o) && (o.contract.Some? ==> PaysRightly(t.from, t.to, o))
    ensures !TronResult(t, o).isValid ==>
              TronResult(t, o).errorCode == Some(
                if t.status == Some(FAILED) then TRANSACTION_SEND_FAILED
                else if !ReceivedRightly(t.to, o) then INVALID_ADDRESS_RECEIVE
                else if o.contract.Some? && !PaysRightly(t.from, t.to, o) then INVALID_ADDRESS_SEND
                else if t.createdAt < o.createdAt then INVALID_TIME_SEND
                else INVALID_AMOUNT)
  {
  }

  predicate Reaches(amount: real, hundredths: int) {
    hundredths as real <= amount * 100.0
  }

  predicate ReachesBelow(amount: real, hundredths: int) {
    hundredths as real <= -(amount * 100.0)
  }

  /** No multiple of a hundredth lies above one of the amounts and at or below the other, on either side of zero. */
  ghost predicate SameHundredths(a: real, b: real) {
    forall k :: k >= 1 ==> (Reaches(a, k) <==> Reaches(b, k)) && (ReachesBelow(a, k) <==> ReachesBelow(b, k))
  }

  lemma ReachesHundredths(a: real, k: int)
    requires k >= 1
    ensures Reaches(a, k) <==> k <= Hundredths(a)
    ensures ReachesBelow(a, k) <==> k <= -Hundredths(a)
  {
    AtMostFloor(k, a * 100.0);
    AtMostFloor(k, -(a * 100.0));
    assert -a * 100.0 == -(a * 100.0);
  }

  lemma AtMostFloor(k: int, x: real)
    ensures k as real <= x <==> k <= x.Floor
  {
  }

  lemma HundredthsAgree(a: real, b: real)
    ensures Hundredths(a) == Hundredths(b) <==> SameHundredths(a, b)
  {
    forall k | k >= 1
      ensures Reaches(a, k) <==> k <= Hundredths(a)
      ensures Reaches(b, k) <==> k <= Hundredths(b)
      ensures ReachesBelow(a, k) <==> k <= -Hundredths(a)
      ensures ReachesBelow(b, k) <==> k <= -Hundredths(b)
    {
      ReachesHundredths(a, k);
      ReachesHundredths(b, k);
    }
    if Hundredths(a) != Hundredths(b) {
      var (low, high) := if Hundredths(a) < Hundredths(b) then (Hundredths(a), Hundredths(b))
                         else (Hundredths(b), Hundredths(a));
      var k := if high >= 1 then high else -low;
      assert k >= 1;
      if high >= 1 {
        assert !(Reaches(a, k) <==> Reaches(b, k));
      } else {
        assert !(ReachesBelow(a, k) <==> ReachesBelow(b, k));
      }
    }
  }

  /** The value is known, is not zero, and is another amount than the order's in whole hundredths. */
  ghost predicate OtherAmount(value: Option<real>, o: Order) {
    value.Some? && value.value != 0.0 && !SameHundredths(value.value, o.amount)
  }

  lemma AmountsInHundredths(value: Option<real>, o: Order)
    ensures IncorrectAmount(value, o) <==> OtherAmount(value, o)
  {
    if value.Some? {
      HundredthsAgree(value.value, o.amount);
    }
  }

  /** A native payment is accepted exactly when it succeeded, its block is not from before the order, it pays the
      right wallet from the right one, it does not go to some contract, and its value, if known and not zero, is the
      order's amount in whole hundredths. */
  lemma NativeAcceptance(r: Receipt, o: Order)
    requires r.isNative
    ensures EthResult(r, o).isValid <==>
              && r.success && (r.createdAt.Some? ==> r.createdAt.value >= o.createdAt)
              && PaysRightly(r.from, r.to, o) && (o.contract.Some? ==> r.to == o.contract.value)
              && !OtherAmount(r.value, o)
  {
    AmountsInHundredths(r.value, o);
  }

  /** A token payment is accepted exactly when it succeeded, its block is not from before the order, it was sent to
      the contract, and every transfer it logged pays the exact amount to the right wallet from the right one. */
  lemma TokenAcceptance(r: Receipt, o: Order)
    requires !r.isNative
    ensures EthResult(r, o).isValid <==>
              && r.success && (r.createdAt.Some? ==> r.createdAt.value >= o.createdAt)
              && (if o.contract.Some? then r.to == o.contract.value else ReceivedRightly(r.to, o))
              && (forall i :: 0 <= i < |r.transfers| ==>
                    PaysRightly(r.transfers[i].from, r.transfers[i].to, o) && r.transfers[i].amount == o.amount)
  {
    EthResultIsConjunction(r, o);
  }

  /** The code of a refused receipt: of the first wrong point for receiver, and then for a native payment sender, time
      and amount, with none for a failed one; for a token payment time, then that of the first logged transfer, which
      is none when another one is wrong, then failure. */
  lemma RefusalCodes(r: Receipt, o: Order)
    requires !EthResult(r, o).isValid
    ensures var code := EthResult(r, o).errorCode;
            var early := r.createdAt.Some? && r.createdAt.value < o.createdAt;
            if r.to != (if o.contract.Some? then o.contract.value
                        else if o.tradeType == SELL then o.merchantWallet else o.userWallet)
            then code == Some(INVALID_ADDRESS_RECEIVE)
            else if r.isNative then
              code == if r.from != (if o.tradeType == SELL then o.userWallet else o.merchantWallet)
                      then Some(INVALID_ADDRESS_SEND)
                      else if !ReceivedRightly(r.to, o) then Some(INVALID_ADDRESS_RECEIVE)
                      else if early then Some(INVALID_TIME_SEND)
                      else if OtherAmount(r.value, o) then Some(INVALID_AMOUNT)
                      else None
            else if early then code == Some(INVALID_TIME_SEND)
            else if forall i :: 0 <= i < |r.transfers| ==>
                      PaysRightly(r.transfers[i].from, r.transfers[i].to, o) && r.transfers[i].amount == o.amount
            then code == Some(TRANSACTION_SEND_FAILED)
            else
              var first := r.transfers[0];
              code == if !ReceivedRightly(first.to, o) then Some(INVALID_ADDRESS_RECEIVE)
                      else if !PaysRightly(first.from, first.to, o) then Some(INVALID_ADDRESS_SEND)
                      else if first.amount != o.amount then Some(INVALID_AMOUNT)
                      else None
  {
    AmountsInHundredths(r.value, o);
    assert forall i :: 0 <= i < |r.transfers| ==>
        (TransactionLog(r.transfers[i], o).isValid
         <==> PaysRightly(r.transfers[i].from, r.transfers[i].to, o) && r.transfers[i].amount == o.amount);
  }

  // ---------------------------------------------------------------- the verdict of one tick

  /** `Wait` leaves the transaction pending; `Unclear` reports an unknown status and leaves it pending too. */
  datatype Verdict = Succeed | Fail | Unclear | Wait

  predicate AllMatch(rows: seq<Status>, status: Status) {
    rows != [] && forall i :: 0 <= i < |rows| ==> rows[i] == status
  }

  predicate IsTransactionFailed(rows: seq<Status>) {
    rows != [] && (AllMatch(rows, FAILED) || (UNKNOWN in rows && FAILED in rows))
  }

  function EthVerdict(rows: seq<Status>, timedOut: bool): Verdict {
    if SUCCEED in rows then Succeed
    else if IsTransactionFailed(rows) then Fail
    else if AllMatch(rows, UNKNOWN) then Unclear
    else if !timedOut then Wait
    else if UNKNOWN in rows then Unclear
    else Fail
  }

  function TronVerdict(rows: seq<Status>, timedOut: bool, failCode: Option<FailCode>): Verdict {
    if SUCCEED in rows then Succeed
    else if !timedOut then Wait
    else if failCode == Some(RPC_UNKNOW_ERROR) then Unclear
    else Fail
  }

  /** Which statuses occur in the rows. */
  function Occurring(rows: seq<Status>): set<Status> {
    set s | s in rows
  }

  /** The ETH verdict as a table over the occurring statuses. */
  function VerdictOf(present: set<Status>, timedOut: bool): Verdict {
    if SUCCEED in present then Succeed
    else if UNKNOWN in present then
      if FAILED in present then Fail
      else if PENDING in present && !timedOut then Wait
      else Unclear
    else if present == {FAILED} || timedOut then Fail
    else Wait
  }

  lemma AllMatchIsSingleton(rows: seq<Status>, status: Status)
    ensures AllMatch(rows, status) <==> Occurring(rows) == {status}
  {
    if AllMatch(rows, status) {
      assert rows[0] in Occurring(rows);
    }
    if Occurring(rows) == {status} {
      assert status in Occurring(rows);
      forall i | 0 <= i < |rows| ensures rows[i] == status {
        assert rows[i] in Occurring(rows);
      }
    }
  }

  lemma EthVerdictIsTable(rows: seq<Status>, timedOut: bool)
    ensures EthVerdict(rows, timedOut) == VerdictOf(Occurring(rows), timedOut)
  {
    var present := Occurring(rows);
    AllMatchIsSingleton(rows, FAILED);
    AllMatchIsSingleton(rows, UNKNOWN);
    assert forall s :: s in rows <==> s in present;
    if rows != [] {
      assert rows[0] in present;
    }
    if UNKNOWN in present && SUCCEED !in present && FAILED !in present && PENDING !in present {
      assert forall s: Status :: s in present ==> s == UNKNOWN;
      assert present == {UNKNOWN};
    }
  }

  /** The ETH verdict depends on nothing but which statuses occur and the timeout: permuting, repeating or
      dropping repeated rows never changes it. */
  lemma EthVerdictIgnoresOrderAndCount(rows: seq<Status>, others: seq<Status>, timedOut: bool)
    requires forall s: Status :: s in rows <==> s in others
    ensures EthVerdict(rows, timedOut) == EthVerdict(others, timedOut)
  {
    EthVerdictIsTable(rows, timedOut);
    EthVerdictIsTable(others, timedOut);
    assert Occurring(rows) == Occurring(others);
  }

  /** A tick past the timeout never waits; before it, TRON never fails and ETH fails only on a failed row. A
      verdict is `Succeed` exactly when some row has succeeded. */
  lemma TimeoutDecides(rows: seq<Status>, failCode: Option<FailCode>, timedOut: bool)
    ensures EthVerdict(rows, true) != Wait && TronVerdict(rows, true, failCode) != Wait
    ensures TronVerdict(rows, false, failCode) != Fail
    ensures EthVerdict(rows, false) == Fail ==> FAILED in rows && SUCCEED !in rows
    ensures EthVerdict(rows, timedOut) == Succeed <==> SUCCEED in rows
    ensures TronVerdict(rows, timedOut, failCode) == Succeed <==> SUCCEED in rows
  {
    AllMatchIsSingleton(rows, FAILED);
    assert AllMatch(rows, FAILED) ==> FAILED in Occurring(rows);
  }

  /** Without a succeeded row a TRON tick past the timeout fails the transaction exactly when the last error was not
      one of the node, and otherwise reports it unknown. */
  lemma TronTimeout(rows: seq<Status>, failCode: Option<FailCode>)
    requires SUCCEED !in rows
    ensures TronVerdict(rows, true, failCode) == Fail <==> failCode != Some(RPC_UNKNOW_ERROR)
    ensures TronVerdict(rows, true, failCode) == Unclear <==> failCode == Some(RPC_UNKNOW_ERROR)
    ensures TronVerdict(rows, false, failCode) == Wait
  {
  }

  /** Waiting longer never revokes: a verdict given before the timeout is the verdict given after it. */
  lemma TimeoutOnlyEndsWaiting(rows: seq<Status>, failCode: Option<FailCode>)
    ensures EthVerdict(rows, false) != Wait ==> EthVerdict(rows, true) == EthVerdict(rows, false)
    ensures TronVerdict(rows, false, failCode) != Wait ==>
              TronVerdict(rows, true, failCode) == TronVerdict(rows, false, failCode)
  {
  }
}
